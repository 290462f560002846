/** The agent object: it owns the store, the registry, the queue and the launcher, and tells peers about changes. */
module Agents {
  import opened Base
  import opened Sessions
  import opened SessionStores
  import opened EventQueues
  import opened Environments
  import opened ProviderRegistries
  import opened ProviderLaunchers
  import opened AgentCore
  import opened AgentSteps

  class Agent {
    const store: SessionStore
    const registry: ProviderRegistry
    const queue: EventQueue
    const launcher: ProviderLauncher
    var subscribers: seq<Socket>
    var lastFallbackLaunch: int
    ghost var launches: seq<Attempt>
    ghost var sent: map<Socket, seq<Msg>>
    ghost var replies: seq<Reply>
    ghost var issued: set<Id>
    ghost var fallbackCalls: nat

    /** Everything the agent may change. */
    ghost function Owned(): set<object>
      reads this, store
    {
      {this, store, registry, queue, launcher} + store.Objects()
    }

    ghost predicate Valid()
      reads this, store
    {
      store.Valid() && Distinct(subscribers)
    }

    ghost function Launching(): Launcher
      reads this, launcher
    {
      Launcher(launcher.retry, lastFallbackLaunch, launches)
    }

    ghost function Data(): Core
      reads this, store, store.Objects(), registry, queue, launcher
    {
      Core(store.Data(), registry.Data(), queue.Data(), Launching(), Members(subscribers), sent, replies, issued, fallbackCalls)
    }

    constructor ()
      ensures Valid() && Data() == INITIAL_CORE
      ensures fresh(Owned())
    {
      store := new SessionStore();
      registry := new ProviderRegistry();
      queue := new EventQueue();
      launcher := new ProviderLauncher();
      subscribers := [];
      lastFallbackLaunch := 0;
      launches, sent, replies, issued, fallbackCalls := [], map[], [], {}, 0;
    }

    lemma Parts()
      ensures Data().registry == registry.Data() && Data().store == store.Data()
    {
    }

    // -- sending

    /** `sendJson` drops messages to sockets that are not connected. */
    method Send(s: Socket, m: Msg, env: Env)
      modifies this`sent
      ensures Data() == old(Data()).Send(s, m, env)
    {
      if s in env.connected {
        sent := sent[s := (if s in sent then sent[s] else []) + [m]];
      }
    }

    /** Sends a requester the answer to its request. */
    method AnswerTo(s: Socket, m: Msg, env: Env)
      modifies this`sent, this`replies
      ensures Data() == ApplyOne(old(Data()), Answer(s, m), env)
    {
      replies := replies + [Reply(s, m)];
      Send(s, m, env);
    }

    method SendToAll(to: seq<Socket>, m: Msg, env: Env)
      requires Distinct(to)
      modifies this`sent
      ensures Data() == old(Data()).SendAll(Members(to), m, env)
    {
      SendNone(Data(), m, env);
      for i := 0 to |to|
        invariant Data() == old(Data()).SendAll(Members(to[..i]), m, env)
      {
        SendOneMore(old(Data()), to, i, m, env);
        Send(to[i], m, env);
      }
      assert to[..|to|] == to;
    }

    method HandOver(handed: seq<(Socket, Event)>, ghost takes: seq<Take>, env: Env)
      requires |takes| == |handed| && forall k :: 0 <= k < |takes| ==> handed[k] == (takes[k].socket, takes[k].event)
      modifies this`sent
      ensures Data() == old(Data()).HandOver(takes, env)
    {
      for i := 0 to |handed|
        invariant Data().HandOver(takes[i..], env) == old(Data()).HandOver(takes, env)
      {
        assert takes[i..][1..] == takes[i + 1..];
        Send(handed[i].0, SessionMsg(handed[i].1), env);
      }
    }

    method Deliver(e: Event, env: Env)
      requires Valid()
      modifies this`sent
      ensures Data() == Delivered(old(Data()), e, env)
    {
      if registry.HasActiveProvider() {
        Send(registry.active.value, SessionMsg(e), env);
      } else {
        SendToAll(subscribers, SessionMsg(e), env);
      }
    }

    method Enqueue(e: Event)
      modifies queue
      ensures Data() == old(Data()).(queue := old(Data()).queue.Enqueue(e))
    {
      queue.Enqueue(e);
    }

    method Drain(env: Env)
      modifies this`sent, queue
      ensures Data() == Drained(old(Data()), env)
    {
      ghost var n := |queue.taken|;
      var handed := queue.DrainToWaiters();
      assert Data() == old(Data()).(queue := old(Data()).queue.Drain());
      HandOver(handed, queue.taken[n..], env);
    }

    /** `EventRouter::route` */
    method Route(e: Event, env: Env)
      requires Valid()
      modifies this`sent, queue
      ensures Data() == old(Data()).Route(e, env)
    {
      RouteIs(Data(), e, env);
      Deliver(e, env);
      Enqueue(e);
      Drain(env);
    }

    // -- providers

    method Status() returns (status: Msg)
      ensures status == UiActive(Data().Info())
    {
      if registry.HasActiveProvider() {
        var p := registry.providers[registry.active.value];
        status := UiActive(Some(ProviderInfo(p.id, p.name, p.kind, p.priority)));
      } else {
        status := UiActive(None);
      }
    }

    method EmitProviderStatus(env: Env)
      requires Valid() && env.Valid()
      modifies this`sent
      ensures Data() == old(Data()).Announce(env)
    {
      var status := Status();
      var sockets := env.socketOrder(registry.providers.Keys);
      assert Members(sockets) == registry.providers.Keys;
      SendToAll(sockets, status, env);
      SendToRest(old(Data()), status, env);
    }

    /** The subscribers that have not been told as providers. */
    method SendToRest(ghost c: Core, status: Msg, env: Env)
      requires Valid() && Data() == c.SendAll(registry.providers.Keys, status, env)
      modifies this`sent
      ensures Data() == c.SendAll(registry.providers.Keys + Members(subscribers), status, env)
    {
      assert registry.providers.Keys + Members(subscribers[..0]) == registry.providers.Keys;
      for i := 0 to |subscribers|
        invariant Data() == c.SendAll(registry.providers.Keys + Members(subscribers[..i]), status, env)
      {
        var s := subscribers[i];
        SendOneRest(c, registry.providers.Keys, subscribers, i, status, env);
        if !(s in registry.providers && s in env.connected) {
          Send(s, status, env);
        }
      }
      assert subscribers[..|subscribers|] == subscribers;
    }

    method Elect(env: Env) returns (changed: bool)
      requires env.Valid()
      modifies registry
      ensures Data() == old(Data()).(registry := old(Data()).registry.Recompute(env))
      ensures changed == (Data().registry.active != old(Data()).registry.active)
    {
      changed := registry.RecomputeActiveProvider(env);
    }

    method Recompute(env: Env)
      requires Valid() && env.Valid()
      modifies this`sent, registry
      ensures Data() == old(Data()).Recompute(env)
    {
      var changed := Elect(env);
      if changed {
        EmitProviderStatus(env);
      }
    }

    method TryLaunch(env: Env)
      modifies this`lastFallbackLaunch, this`launches, launcher
      ensures Launching() == old(Launching()).TryLaunch(registry.Data().HasActive(), store.Data() != map[], env)
    {
      store.EmptyData();
      var attempted, launched := launcher.TryLaunch(Launching(), registry.HasActiveProvider(), !store.Empty(), env);
      if launched {
        lastFallbackLaunch := env.now;
      }
      if attempted.Some? {
        launches := launches + [Attempt(attempted.value, env.now, launched)];
      }
    }

    method EnsureFallbackUiRunning(env: Env)
      modifies this`fallbackCalls, this`lastFallbackLaunch, this`launches, launcher
      ensures Data() == old(Data()).EnsureFallback(env)
    {
      hide Launcher.TryLaunch, Registry.HasActive;
      fallbackCalls := fallbackCalls + 1;
      if registry.HasActiveProvider() || env.lockHeld || env.now - lastFallbackLaunch < LAUNCH_COOLDOWN_MS {
        return;
      }
      TryLaunch(env);
    }

    method EnsureIfUnattended(env: Env)
      modifies this`fallbackCalls, this`lastFallbackLaunch, this`launches, launcher
      ensures Data() == old(Data()).EnsureIfUnattended(env)
    {
      store.EmptyData();
      if !registry.HasActiveProvider() && !store.Empty() {
        EnsureFallbackUiRunning(env);
      }
    }

    // -- sessions

    method CreateSession(id: Id, source: Source, context: Context, env: Env) returns (created: bool)
      requires Valid()
      modifies this`sent, this`fallbackCalls, this`lastFallbackLaunch, this`launches, store, queue, launcher
      ensures Valid() && fresh(store.Objects() - old(store.Objects()))
      ensures created == (id !in old(Data()).store) && Data() == old(Data()).Create(id, source, context, env)
    {
      hide SessionStore.Data;
      var event := store.CreateSession(id, source, context);
      if event.None? {
        return false;
      }
      assert Data() == old(Data()).(store := old(Data()).store[id := NewSession(id, source, context)]);
      Route(event.value, env);
      if !registry.HasActiveProvider() {
        EnsureFallbackUiRunning(env);
      }
      created := true;
    }

    method UpdateSessionPrompt(id: Id, prompt: string, echo: bool, clearError: bool, env: Env)
      requires Valid()
      modifies this`sent, store.Objects(), queue
      ensures Valid() && store.Objects() == old(store.Objects())
      ensures Data() == old(Data()).UpdatePrompt(id, prompt, echo, clearError, env)
    {
      var event := store.UpdatePrompt(id, prompt, echo, clearError);
      if event.Some? {
        Route(event.value, env);
      }
    }

    /** The two calls with which a manager opens a session. */
    method OpenSession(id: Id, source: Source, context: Context, prompt: string, clearError: bool, env: Env) returns (created: bool)
      requires Valid()
      modifies this`sent, this`fallbackCalls, this`lastFallbackLaunch, this`launches, store, store.Objects(), queue, launcher
      ensures Valid() && fresh(store.Objects() - old(store.Objects())) && created == (id !in old(Data()).store)
      ensures Data() == ApplyOne(old(Data()), DoOpen(id, source, context, prompt, clearError), env)
    {
      hide SessionStore.Data, Agent.Data, Core.SendAll;
      created := CreateSession(id, source, context, env);
      if created {
        UpdateSessionPrompt(id, prompt, false, clearError, env);
      }
    }

    method UpdateSessionError(id: Id, error: string, env: Env)
      requires Valid()
      modifies this`sent, store.Objects(), queue
      ensures Valid() && store.Objects() == old(store.Objects())
      ensures Data() == old(Data()).UpdateError(id, error, env)
    {
      var event := store.UpdateError(id, error);
      if event.Some? {
        Route(event.value, env);
      }
    }

    method UpdateSessionInfo(id: Id, info: string, env: Env)
      requires Valid()
      modifies this`sent, store.Objects(), queue
      ensures Valid() && store.Objects() == old(store.Objects())
      ensures Data() == old(Data()).UpdateInfo(id, info, env)
    {
      var event := store.UpdateInfo(id, info);
      if event.Some? {
        Route(event.value, env);
      }
    }

    // -- the same for polkit

    method OnSessionRequest(id: Id, prompt: string, echo: bool, env: Env)
      requires Valid()
      modifies this`sent, store.Objects(), queue
      ensures Valid() && store.Objects() == old(store.Objects())
      ensures Data() == Apply(old(Data()), [DoPrompt(id, prompt, echo)], env)
    {
      ApplySingle(Data(), DoPrompt(id, prompt, echo), env);
      UpdateSessionPrompt(id, prompt, echo, true, env);
    }

    method OnSessionRetry(id: Id, error: string, env: Env)
      requires Valid()
      modifies this`sent, store.Objects(), queue
      ensures Valid() && store.Objects() == old(store.Objects())
      ensures Data() == Apply(old(Data()), [DoError(id, error)], env)
    {
      ApplySingle(Data(), DoError(id, error), env);
      UpdateSessionError(id, error, env);
    }

    method OnSessionInfo(id: Id, info: string, env: Env)
      requires Valid()
      modifies this`sent, store.Objects(), queue
      ensures Valid() && store.Objects() == old(store.Objects())
      ensures Data() == Apply(old(Data()), [DoInfo(id, info)], env)
    {
      ApplySingle(Data(), DoInfo(id, info), env);
      UpdateSessionInfo(id, info, env);
    }

    method UpdateSessionPinentryRetry(id: Id, cur: int, max: int)
      requires Valid()
      modifies store.Objects()
      ensures Valid() && store.Objects() == old(store.Objects())
      ensures Data() == old(Data()).UpdatePinentryRetry(id, cur, max)
    {
      var done := store.UpdatePinentryRetry(id, cur, max);
    }

    /** The two calls with which a pinentry session is asked again. */
    method RepromptSession(id: Id, cur: int, max: int, prompt: string, env: Env)
      requires Valid()
      modifies this`sent, store.Objects(), queue
      ensures Valid() && store.Objects() == old(store.Objects())
      ensures Data() == ApplyOne(old(Data()), DoReprompt(id, cur, max, prompt), env)
    {
      UpdateSessionPinentryRetry(id, cur, max);
      UpdateSessionPrompt(id, prompt, false, false, env);
    }

    method RecomputeIfIdle(env: Env)
      requires Valid() && env.Valid()
      modifies this`sent, registry
      ensures Data() == old(Data()).RecomputeIfIdle(env)
    {
      store.EmptyData();
      if store.Empty() {
        Recompute(env);
      }
    }

    method CloseSession(id: Id, result: Result, env: Env)
      requires Valid() && env.Valid()
      modifies this`sent, store, store.Objects(), registry, queue
      ensures Valid() && store.Objects() <= old(store.Objects())
      ensures Data() == old(Data()).Close(id, result, env)
    {
      var event := store.CloseSession(id, result);
      if event.Some? {
        assert Data() == old(Data()).(store := old(Data()).store - {id});
        RecomputeIfIdle(env);
        Route(event.value, env);
      }
    }

    method OnSessionComplete(id: Id, success: bool, env: Env)
      requires Valid() && env.Valid()
      modifies this`sent, store, store.Objects(), registry, queue
      ensures Valid() && store.Objects() <= old(store.Objects())
      ensures Data() == Apply(old(Data()), [DoComplete(id, success)], env)
    {
      hide SessionStore.Data, Registry.Recompute, Core.Route, Core.EnsureFallback, Env.Valid, Core.SendAll;
      ApplySingle(Data(), DoComplete(id, success), env);
      var event := store.CloseSession(id, if success then Success else Cancelled);
      if event.Some? {
        assert Data() == old(Data()).(store := old(Data()).store - {id});
        Route(event.value, env);
        RecomputeIfIdle(env);
        assert Data() == old(Data()).Complete(id, success, env);
      }
    }

    // -- messages that only concern the agent

    method HandlePing(s: Socket, env: Env)
      modifies this`sent
      ensures Data() == old(Data()).Send(s, Pong(old(Data()).Info()), env)
    {
      if registry.HasActiveProvider() {
        var p := registry.providers[registry.active.value];
        Send(s, Pong(Some(ProviderInfo(p.id, p.name, p.kind, p.priority))), env);
      } else {
        Send(s, Pong(None), env);
      }
    }

    method ShowSessions(s: Socket, env: Env)
      requires Valid() && env.Valid()
      modifies this`sent
      ensures Data() == old(Data()).SendEach(s, Snapshot(env.idOrder(old(Data()).store.Keys), old(Data()).store), env)
    {
      store.EmptyData();
      var ids := env.idOrder(store.sessions.Keys);
      ghost var shown := Data().store;
      for i := 0 to |ids|
        invariant Data().store == shown
        invariant Data().SendEach(s, Snapshot(ids[i..], shown), env) == old(Data()).SendEach(s, Snapshot(ids, shown), env)
      {
        ShowOne(Data(), s, ids, i, shown, env);
        var session := store.sessions[ids[i]];
        Send(s, SessionMsg(session.Data().CreatedEvent()), env);
        Send(s, SessionMsg(session.Data().UpdatedEvent()), env);
      }
      ShowNothing(Data(), s, env);
    }

    method AddSubscriber(s: Socket)
      requires Valid()
      modifies this`subscribers
      ensures Valid() && Data() == old(Data()).(subscribers := old(Data()).subscribers + {s})
    {
      if s !in subscribers {
        subscribers := subscribers + [s];
      }
      assert Members(subscribers) == Members(old(subscribers)) + {s};
    }

    method HandleSubscribe(s: Socket, env: Env)
      requires Valid() && env.Valid()
      modifies this`sent, this`subscribers
      ensures Valid() && Data() == old(Data()).Subscribe(s, env)
    {
      AddSubscriber(s);
      var registered := s in registry.providers;
      var isActive := registered && registry.active == Some(s);
      var interactive := !registered || isActive;
      if interactive {
        ShowSessions(s, env);
      } else {
        ShowNothing(Data(), s, env);
      }
      store.EmptyData();
      Send(s, Subscribed(if interactive then |store.sessions| else 0, if registered then Some(isActive) else None), env);
    }

    method HandleNext(s: Socket, env: Env)
      modifies this`sent, queue
      ensures Data() == old(Data()).Next(s, env)
    {
      if queue.IsEmpty() {
        Wait(s);
      } else {
        var event := TakeNext(s);
        Send(s, SessionMsg(event), env);
      }
    }

    method Wait(s: Socket)
      modifies queue
      ensures var c := old(Data()); Data() == c.(queue := c.queue.(waiters := c.queue.waiters + [s]))
    {
      queue.SubscribeNext(s);
    }

    method TakeNext(ghost s: Socket) returns (event: Event)
      requires Data().queue.events != []
      modifies queue
      ensures event == old(Data()).queue.events[0] && Data() == old(Data()).(queue := old(Data()).queue.TakeFirst(s))
    {
      event := queue.TakeNext(s);
    }

    method Admit(s: Socket, msg: Registration, env: Env) returns (provider: Provider)
      modifies registry, this`issued
      ensures var r := old(Data()).registry.Register(s, msg, env);
              provider == r.providers[s] && Data() == old(Data()).(registry := r, issued := old(Data()).issued + {provider.id})
    {
      provider := registry.RegisterProvider(s, msg, env);
      issued := issued + {provider.id};
    }

    method HandleUIRegister(s: Socket, msg: Registration, env: Env)
      requires Valid() && env.Valid()
      modifies this`sent, this`issued, registry
      ensures Data() == old(Data()).Register(s, msg, env)
    {
      var provider := Admit(s, msg, env);
      var changed := Elect(env);
      var nowActive := registry.active == Some(s);
      Send(s, UiRegistered(provider.id, Some(nowActive), provider.priority), env);
      if changed || nowActive {
        EmitProviderStatus(env);
      }
    }

    method Touch(s: Socket, env: Env) returns (known: bool)
      modifies registry
      ensures known == (s in old(Data()).registry.providers)
      ensures Data() == if known then old(Data()).(registry := old(Data()).registry.Heartbeat(s, env)) else old(Data())
    {
      known := registry.Heartbeat(s, env);
    }

    method HandleUIHeartbeat(s: Socket, env: Env)
      requires Valid() && env.Valid()
      modifies this`sent, registry
      ensures Data() == old(Data()).Heartbeat(s, env)
    {
      var known := Touch(s, env);
      if !known {
        Send(s, Failure("Provider not registered"), env);
        return;
      }
      Recompute(env);
      Send(s, Ok(Some(registry.active == Some(s))), env);
    }

    method Drop(s: Socket) returns (known: bool)
      modifies registry
      ensures known == (s in old(Data()).registry.providers)
      ensures Data() == if known then old(Data()).(registry := old(Data()).registry.Remove(s)) else old(Data())
    {
      assert s !in registry.providers ==> registry.providers - {s} == registry.providers;
      known := registry.UnregisterProvider(s);
    }

    method HandleUIUnregister(s: Socket, env: Env)
      requires Valid() && env.Valid()
      modifies this`sent, this`fallbackCalls, this`lastFallbackLaunch, this`launches, registry, launcher
      ensures Data() == old(Data()).Unregister(s, env)
    {
      var known := Drop(s);
      if !known {
        Send(s, Failure("Provider not registered"), env);
        return;
      }
      Recompute(env);
      Send(s, Ok(None), env);
      EnsureIfUnattended(env);
    }

    /** What `onClientDisconnected` does about providers. */
    method RemoveProvider(s: Socket, env: Env)
      requires Valid() && env.Valid()
      modifies this`sent, registry
      ensures Data() == old(Data()).RemoveProvider(s, env)
    {
      var known := Drop(s);
      if known {
        Recompute(env);
      }
    }

    method Unsubscribe(s: Socket)
      requires Valid()
      modifies this`subscribers
      ensures Valid() && Data() == old(Data()).(subscribers := old(Data()).subscribers - {s})
    {
      for i := 0 to |subscribers|
        invariant subscribers == old(subscribers) && s !in subscribers[..i]
      {
        if subscribers[i] == s {
          RemoveOne(subscribers, i);
          subscribers := subscribers[..i] + subscribers[i + 1..];
          return;
        }
      }
      assert subscribers[..|subscribers|] == subscribers;
      assert Members(subscribers) - {s} == Members(subscribers);
    }

    method RemoveWaiter(s: Socket)
      modifies queue
      ensures Data() == old(Data()).(queue := old(Data()).queue.RemoveWaiter(s))
    {
      queue.RemoveWaiter(s);
    }

    /** What a disconnection means for the agent's own tables. */
    method Forsake(s: Socket, env: Env)
      requires Valid() && env.Valid()
      modifies this`sent, this`subscribers, registry, queue
      ensures Valid() && store.Objects() == old(store.Objects()) && Data() == Forsaken(old(Data()), s, env)
    {
      hide Agent.Data, Env.Valid, Forsaken, Core.RemoveProvider;
      ForsakenSteps(Data(), s, env);
      Unsubscribe(s);
      RemoveProvider(s, env);
      RemoveWaiter(s);
    }

    /** Changes elsewhere leave the agent alone. */
    twostate lemma Untouched()
      requires unchanged(this) && unchanged(store) && unchanged(registry) && unchanged(queue) && unchanged(launcher)
      requires forall id :: id in store.sessions ==> unchanged(store.sessions[id])
      ensures Data() == old(Data()) && Valid() == old(Valid())
    {
      assert store.Data() == old(store.Data());
    }

    method PruneStaleProviders(env: Env)
      requires Valid() && env.Valid()
      modifies this`sent, this`fallbackCalls, this`lastFallbackLaunch, this`launches, registry, launcher
      ensures Data() == old(Data()).Prune(env)
    {
      Recompute(env);
      EnsureIfUnattended(env);
    }
  }
}
