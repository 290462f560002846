/** The daemon's shared state, and every change a request handler may ask of it.

    A handler never touches this state directly: it calls the agent. Each such call is an `Op`, and a handler's
    effect on the shared state is the list of calls it makes, in order. */
module AgentCore {
  import opened Base
  import opened Sessions
  import opened EventQueues
  import opened Environments
  import opened ProviderRegistries
  import opened ProviderLaunchers

  datatype ProviderInfo = ProviderInfo(id: Id, name: string, kind: string, priority: int)

  datatype PinOutcome = Password(password: string) | Confirmed | Declined

  /** Messages from the daemon to a peer. */
  datatype Msg =
    | SessionMsg(event: Event)
    | Subscribed(sessionCount: nat, active: Option<bool>)
    | UiRegistered(id: Id, isActive: Option<bool>, priority: int)
    | UiActive(provider: Option<ProviderInfo>)
    | Ok(nowActive: Option<bool>)
    | Failure(message: string)
    | Pong(provider: Option<ProviderInfo>)
    | KeyringReply(id: Id, secret: Option<string>)
    | PinentryReply(id: Id, outcome: PinOutcome)

  datatype Reply = Reply(socket: Socket, msg: Msg)

  /** `sent` holds every message written to each socket; `replies` every answer offered to a keyring or pinentry
      requester; `issued` every provider id handed out; `fallbackCalls` counts calls to `ensureFallbackUiRunning`. */
  datatype Core = Core(
    store: map<Id, SessionData>,
    registry: Registry,
    queue: QueueData,
    launcher: Launcher,
    subscribers: set<Socket>,
    sent: map<Socket, seq<Msg>>,
    replies: seq<Reply>,
    issued: set<Id>,
    fallbackCalls: nat)
  {
    function Inbox(s: Socket): seq<Msg> {
      if s in sent then sent[s] else []
    }

    // -- sending

    function SendEach(s: Socket, ms: seq<Msg>, env: Env): Core {
      if s in env.connected && ms != [] then this.(sent := sent[s := Inbox(s) + ms]) else this
    }

    function Send(s: Socket, m: Msg, env: Env): Core {
      SendEach(s, [m], env)
    }

    function SendAll(to: set<Socket>, m: Msg, env: Env): Core {
      this.(sent := map s | s in sent.Keys + (to * env.connected) ::
        if s in to && s in env.connected then Inbox(s) + [m] else Inbox(s))
    }

    function HandOver(takes: seq<Take>, env: Env): Core
      decreases |takes|
    {
      if takes == [] then this
      else Send(takes[0].socket, SessionMsg(takes[0].event), env).HandOver(takes[1..], env)
    }

    /** `EventRouter::route`: to the active provider alone if there is one, else to every subscriber; then `next`. */
    function Route(e: Event, env: Env): Core {
      var q := queue.Route(e);
      var delivered := if registry.HasActive() then Send(registry.active.value, SessionMsg(e), env)
                       else SendAll(subscribers, SessionMsg(e), env);
      delivered.(queue := q).HandOver(q.taken[|queue.taken|..], env)
    }

    // -- providers

    function Info(): Option<ProviderInfo> {
      var p := registry.ActiveInfo();
      if p.None? then None else Some(ProviderInfo(p.value.id, p.value.name, p.value.kind, p.value.priority))
    }

    /** `emitProviderStatus` */
    function Announce(env: Env): Core {
      SendAll(registry.providers.Keys + subscribers, UiActive(Info()), env)
    }

    /** `recomputeActiveProvider`, announced if the winner changed. */
    function Recompute(env: Env): Core {
      var r := registry.Recompute(env);
      var c := this.(registry := r);
      if r.active == registry.active then c else c.Announce(env)
    }

    function EnsureFallback(env: Env): Core {
      this.(fallbackCalls := fallbackCalls + 1,
            launcher := launcher.EnsureFallback(registry.HasActive(), store != map[], env))
    }

    predicate Unattended() {
      !registry.HasActive() && store != map[]
    }

    function EnsureIfUnattended(env: Env): Core {
      if Unattended() then EnsureFallback(env) else this
    }

    function Register(s: Socket, msg: Registration, env: Env): Core {
      var r := registry.Register(s, msg, env);
      var q := r.Recompute(env);
      var nowActive := q.active == Some(s);
      var c := this.(registry := q, issued := issued + {r.providers[s].id})
               .Send(s, UiRegistered(r.providers[s].id, Some(nowActive), r.providers[s].priority), env);
      if q.active != registry.active || nowActive then c.Announce(env) else c
    }

    function Heartbeat(s: Socket, env: Env): Core {
      if s !in registry.providers then Send(s, Failure("Provider not registered"), env)
      else
        var c := this.(registry := registry.Heartbeat(s, env)).Recompute(env);
        c.Send(s, Ok(Some(c.registry.active == Some(s))), env)
    }

    /** `removeSocket` or `unregisterProvider`, and the election that follows. */
    function RemoveProvider(s: Socket, env: Env): Core {
      if s !in registry.providers then this else this.(registry := registry.Remove(s)).Recompute(env)
    }

    function Unregister(s: Socket, env: Env): Core {
      if s !in registry.providers then Send(s, Failure("Provider not registered"), env)
      else RemoveProvider(s, env).Send(s, Ok(None), env).EnsureIfUnattended(env)
    }

    function Prune(env: Env): Core {
      Recompute(env).EnsureIfUnattended(env)
    }

    // -- subscribers

    function Subscribe(s: Socket, env: Env): Core {
      var registered := s in registry.providers;
      var isActive := registered && registry.active == Some(s);
      var interactive := !registered || isActive;
      this.(subscribers := subscribers + {s})
      .SendEach(s, if interactive then Snapshot(env.idOrder(store.Keys), store) else [], env)
      .Send(s, Subscribed(if interactive then |store| else 0, if registered then Some(isActive) else None), env)
    }

    function Next(s: Socket, env: Env): Core {
      var c := this.(queue := queue.Next(s));
      if queue.events == [] then c else c.Send(s, SessionMsg(queue.events[0]), env)
    }

    // -- sessions

    function Create(id: Id, source: Source, context: Context, env: Env): Core {
      if id in store then this
      else
        var d := NewSession(id, source, context);
        var c := this.(store := store[id := d]).Route(d.CreatedEvent(), env);
        if c.registry.HasActive() then c else c.EnsureFallback(env)
    }

    /** The session takes the value `d`, and its update is announced. */
    function Update(d: SessionData, env: Env): Core {
      this.(store := store[d.id := d]).Route(d.UpdatedEvent(), env)
    }

    function UpdatePrompt(id: Id, prompt: string, echo: bool, clearError: bool, env: Env): Core {
      if id !in store then this else Update(store[id].SetPrompt(prompt, echo, clearError), env)
    }

    function UpdateError(id: Id, error: string, env: Env): Core {
      if id !in store then this else Update(store[id].SetError(error), env)
    }

    function UpdateInfo(id: Id, info: string, env: Env): Core {
      if id !in store then this else Update(store[id].SetInfo(info), env)
    }

    /** Changes the session without telling anybody. */
    function UpdatePinentryRetry(id: Id, cur: int, max: int): Core {
      if id !in store || store[id].source != Pinentry then this
      else this.(store := store[id := store[id].SetPinentryRetry(cur, max)])
    }

    function RecomputeIfIdle(env: Env): Core {
      if store == map[] then Recompute(env) else this
    }

    /** `closeSession`: the election, if this was the last session, comes before the event. */
    function Close(id: Id, result: Result, env: Env): Core {
      if id !in store then this
      else this.(store := store - {id}).RecomputeIfIdle(env).Route(store[id].Close(result).ClosedEvent(), env)
    }

    /** `onSessionComplete`, the polkit way to close: the election comes after the event. */
    function Complete(id: Id, success: bool, env: Env): Core {
      if id !in store then this
      else this.(store := store - {id})
           .Route(store[id].Close(if success then Success else Cancelled).ClosedEvent(), env).RecomputeIfIdle(env)
    }

    /** The agent calls of `PinentryManager::closeFlow`. */
    function CloseFlow(id: Id, result: Result, error: string, env: Env): Core {
      if id !in store || store[id].source != Pinentry then this
      else if error == "" then Close(id, result, env)
      else UpdateError(id, error, env).Close(id, result, env)
    }
  }

  const INITIAL_CORE := Core(map[], Registry(map[], None), EMPTY_QUEUE, NO_LAUNCHES, {}, map[], [], {}, 0)

  /** What a new subscriber is told about the sessions that already exist. */
  function Snapshot(ids: seq<Id>, store: map<Id, SessionData>): seq<Msg> {
    if ids == [] then []
    else if ids[0] !in store then Snapshot(ids[1..], store)
    else [SessionMsg(store[ids[0]].CreatedEvent()), SessionMsg(store[ids[0]].UpdatedEvent())] + Snapshot(ids[1..], store)
  }

  datatype Op =
    | Say(s: Socket, m: Msg)                       // a message to the peer a handler is serving
    | Answer(s: Socket, m: Msg)                    // an answer to the peer that made the request
    | DoCreate(id: Id, source: Source, context: Context)
    | DoOpen(id: Id, source: Source, context: Context, prompt: string, clearError: bool)   // create, then prompt
    | DoReprompt(id: Id, cur: int, max: int, prompt: string)                               // retry counts, then prompt
    | DoPrompt(id: Id, prompt: string, echo: bool)
    | DoError(id: Id, error: string)
    | DoInfo(id: Id, info: string)
    | DoClose(id: Id, result: Result)
    | DoCloseFlow(id: Id, result: Result, error: string)
    | DoComplete(id: Id, success: bool)
    | DoSubscribe(s: Socket)
    | DoNext(s: Socket)
    | DoRegister(s: Socket, msg: Registration)
    | DoHeartbeat(s: Socket)
    | DoUnregister(s: Socket)
    | DoRemoveProvider(s: Socket)
    | DoUnsubscribe(s: Socket)
    | DoRemoveWaiter(s: Socket)
    | DoPrune
    | DoEnsure

  function ApplyOne(c: Core, op: Op, env: Env): Core {
    match op
    case Say(s, m) => c.Send(s, m, env)
    case Answer(s, m) => c.(replies := c.replies + [Reply(s, m)]).Send(s, m, env)
    case DoCreate(id, source, context) => c.Create(id, source, context, env)
    case DoOpen(id, source, context, prompt, clearError) =>
      if id in c.store then c
      else c.Create(id, source, context, env).UpdatePrompt(id, prompt, false, clearError, env)
    case DoReprompt(id, cur, max, prompt) => c.UpdatePinentryRetry(id, cur, max).UpdatePrompt(id, prompt, false, false, env)
    case DoPrompt(id, prompt, echo) => c.UpdatePrompt(id, prompt, echo, true, env)
    case DoError(id, error) => c.UpdateError(id, error, env)
    case DoInfo(id, info) => c.UpdateInfo(id, info, env)
    case DoClose(id, result) => c.Close(id, result, env)
    case DoCloseFlow(id, result, error) => c.CloseFlow(id, result, error, env)
    case DoComplete(id, success) => c.Complete(id, success, env)
    case DoSubscribe(s) => c.Subscribe(s, env)
    case DoNext(s) => c.Next(s, env)
    case DoRegister(s, msg) => c.Register(s, msg, env)
    case DoHeartbeat(s) => c.Heartbeat(s, env)
    case DoUnregister(s) => c.Unregister(s, env)
    case DoRemoveProvider(s) => c.RemoveProvider(s, env)
    case DoUnsubscribe(s) => c.(subscribers := c.subscribers - {s})
    case DoRemoveWaiter(s) => c.(queue := c.queue.RemoveWaiter(s))
    case DoPrune => c.Prune(env)
    case DoEnsure => c.EnsureIfUnattended(env)
  }

  function Apply(c: Core, ops: seq<Op>, env: Env): Core
    decreases |ops|
  {
    if ops == [] then c else Apply(ApplyOne(c, ops[0], env), ops[1..], env)
  }

  lemma ApplySingle(c: Core, op: Op, env: Env)
    ensures Apply(c, [op], env) == ApplyOne(c, op, env)
  {
    assert [op][1..] == [];
  }

  lemma {:induction false} ApplyConcat(c: Core, xs: seq<Op>, ys: seq<Op>, env: Env)
    ensures Apply(c, xs + ys, env) == Apply(Apply(c, xs, env), ys, env)
    decreases |xs|
  {
    if xs == [] {
      assert xs + ys == ys;
    } else {
      assert (xs + ys)[1..] == xs[1..] + ys;
      ApplyConcat(ApplyOne(c, xs[0], env), xs[1..], ys, env);
    }
  }
}
