/** What every agent call keeps, and hence every handler and every run. */
module CoreInvariants {
  import opened Base
  import opened Sessions
  import opened EventQueues
  import opened Environments
  import opened ProviderRegistries
  import opened ProviderLaunchers
  import opened AgentCore

  // ---- the life of one session id, as its events tell it

  datatype Life = Absent | Open | Broken

  /** created, then any number of updates, then closed; and again. */
  function Live(life: Life, e: Event): Life {
    match e
    case Created(_, _, _, _, _) => if life == Absent then Open else Broken
    case Updated(_, _, _, _, _, _) => if life == Open then Open else Broken
    case Closed(_, _, _) => if life == Open then Absent else Broken
  }

  function LifeOf(trace: seq<Event>, id: Id): Life {
    if trace == [] then Absent
    else
      var before, e := LifeOf(trace[..|trace| - 1], id), trace[|trace| - 1];
      if e.id == id then Live(before, e) else before
  }

  function CountCreated(trace: seq<Event>, id: Id): nat {
    if trace == [] then 0
    else CountCreated(trace[..|trace| - 1], id) + (if trace[|trace| - 1].Created? && trace[|trace| - 1].id == id then 1 else 0)
  }

  function CountClosed(trace: seq<Event>, id: Id): nat {
    if trace == [] then 0
    else CountClosed(trace[..|trace| - 1], id) + (if trace[|trace| - 1].Closed? && trace[|trace| - 1].id == id then 1 else 0)
  }

  /** In a well-formed trace, creations outnumber closings by one while the session is open, and balance otherwise. */
  lemma {:induction false} LifeCounts(trace: seq<Event>, id: Id)
    requires LifeOf(trace, id) != Broken
    ensures CountCreated(trace, id) == CountClosed(trace, id) + if LifeOf(trace, id) == Open then 1 else 0
  {
    if trace != [] {
      LifeCounts(trace[..|trace| - 1], id);
    }
  }

  lemma LifeStep(trace: seq<Event>, e: Event, id: Id)
    ensures LifeOf(trace + [e], id) == if e.id == id then Live(LifeOf(trace, id), e) else LifeOf(trace, id)
  {
    assert (trace + [e])[..|trace|] == trace;
  }

  // ---- the invariant

  ghost predicate StoreInv(store: map<Id, SessionData>) {
    forall id :: id in store ==> store[id].id == id && !store[id].closed
  }

  /** The routed events tell exactly the story of the store. */
  ghost predicate TraceInv(c: Core) {
    forall id :: LifeOf(c.queue.routed, id) == if id in c.store then Open else Absent
  }

  ghost predicate CoreInv(c: Core) {
    Elected(c.registry) && QueueInv(c.queue) && StoreInv(c.store) && TraceInv(c) && LauncherInv(c.launcher)
  }

  /** Everything but the outgoing messages. */
  ghost predicate SameButSent(a: Core, b: Core) {
    b == a.(sent := b.sent)
  }

  lemma {:induction false} HandOverSendsOnly(c: Core, takes: seq<Take>, env: Env)
    ensures SameButSent(c, c.HandOver(takes, env))
    decreases |takes|
  {
    if takes != [] {
      HandOverSendsOnly(c.Send(takes[0].socket, SessionMsg(takes[0].event), env), takes[1..], env);
    }
  }

  /** Routing touches the queue and the outgoing messages, nothing else. */
  lemma RouteChanges(c: Core, e: Event, env: Env)
    ensures c.Route(e, env) == c.(queue := c.queue.Route(e), sent := c.Route(e, env).sent)
  {
    var q := c.queue.Route(e);
    var delivered := if c.registry.HasActive() then c.Send(c.registry.active.value, SessionMsg(e), env)
                     else c.SendAll(c.subscribers, SessionMsg(e), env);
    HandOverSendsOnly(delivered.(queue := q), q.taken[|c.queue.taken|..], env);
  }

  lemma RouteKeepsCore(c: Core, e: Event, env: Env)
    requires Elected(c.registry) && QueueInv(c.queue) && StoreInv(c.store) && LauncherInv(c.launcher)
    requires forall id :: id != e.id ==> LifeOf(c.queue.routed, id) == if id in c.store then Open else Absent
    requires Live(LifeOf(c.queue.routed, e.id), e) == if e.id in c.store then Open else Absent
    ensures CoreInv(c.Route(e, env))
  {
    RouteChanges(c, e, env);
    RouteKeeps(c.queue, e);
    forall id
      ensures LifeOf(c.queue.routed + [e], id) == if id in c.store then Open else Absent
    {
      LifeStep(c.queue.routed, e, id);
    }
  }

  lemma RecomputeKeeps(c: Core, env: Env)
    requires env.Valid() && QueueInv(c.queue) && StoreInv(c.store) && TraceInv(c) && LauncherInv(c.launcher)
    ensures CoreInv(c.Recompute(env))
  {
    RecomputeElects(c.registry, env);
  }

  lemma EnsureKeeps(c: Core, env: Env)
    requires env.Valid() && CoreInv(c)
    ensures CoreInv(c.EnsureFallback(env)) && CoreInv(c.EnsureIfUnattended(env))
  {
    EnsureFallbackKeeps(c.launcher, c.registry.HasActive(), c.store != map[], env);
  }

  lemma UpdateKeeps(c: Core, d: SessionData, env: Env)
    requires CoreInv(c) && d.id in c.store && !d.closed
    ensures CoreInv(c.Update(d, env))
  {
    RouteKeepsCore(c.(store := c.store[d.id := d]), d.UpdatedEvent(), env);
  }

  lemma CreateKeeps(c: Core, id: Id, source: Source, context: Context, env: Env)
    requires env.Valid() && CoreInv(c)
    ensures CoreInv(c.Create(id, source, context, env))
  {
    if id !in c.store {
      var d := NewSession(id, source, context);
      var c1 := c.(store := c.store[id := d]);
      RouteKeepsCore(c1, d.CreatedEvent(), env);
      EnsureKeeps(c1.Route(d.CreatedEvent(), env), env);
    }
  }

  lemma CloseKeeps(c: Core, id: Id, result: Result, env: Env)
    requires env.Valid() && CoreInv(c)
    ensures CoreInv(c.Close(id, result, env))
  {
    if id in c.store {
      var c1 := c.(store := c.store - {id});
      RecomputeElects(c.registry, env);
      RouteKeepsCore(c1.RecomputeIfIdle(env), c.store[id].Close(result).ClosedEvent(), env);
    }
  }

  lemma CompleteKeeps(c: Core, id: Id, success: bool, env: Env)
    requires env.Valid() && CoreInv(c)
    ensures CoreInv(c.Complete(id, success, env))
  {
    if id in c.store {
      var c1 := c.(store := c.store - {id});
      var e := c.store[id].Close(if success then Success else Cancelled).ClosedEvent();
      RouteKeepsCore(c1, e, env);
      RecomputeKeeps(c1.Route(e, env), env);
    }
  }

  lemma CloseFlowKeeps(c: Core, id: Id, result: Result, error: string, env: Env)
    requires env.Valid() && CoreInv(c)
    ensures CoreInv(c.CloseFlow(id, result, error, env))
  {
    if id in c.store && error != "" {
      UpdateKeeps(c, c.store[id].SetError(error), env);
      CloseKeeps(c.UpdateError(id, error, env), id, result, env);
    } else {
      CloseKeeps(c, id, result, env);
    }
  }

  /** An election, whatever it announces, keeps the invariant. */
  lemma ElectionKeeps(c: Core, d: Core)
    requires CoreInv(c) && Elected(d.registry)
    requires d == c.(registry := d.registry, sent := d.sent, issued := d.issued)
    ensures CoreInv(d)
  {
  }

  lemma RegisterKeeps(c: Core, s: Socket, msg: Registration, env: Env)
    requires env.Valid() && CoreInv(c)
    ensures CoreInv(c.Register(s, msg, env))
  {
    RecomputeElects(c.registry.Register(s, msg, env), env);
    ElectionKeeps(c, c.Register(s, msg, env));
  }

  lemma HeartbeatKeeps(c: Core, s: Socket, env: Env)
    requires env.Valid() && CoreInv(c)
    ensures CoreInv(c.Heartbeat(s, env))
  {
    if s in c.registry.providers {
      RecomputeElects(c.registry.Heartbeat(s, env), env);
    }
    ElectionKeeps(c, c.Heartbeat(s, env));
  }

  lemma RemoveProviderKeeps(c: Core, s: Socket, env: Env)
    requires env.Valid() && CoreInv(c)
    ensures CoreInv(c.RemoveProvider(s, env))
  {
    if s in c.registry.providers {
      RecomputeElects(c.registry.Remove(s), env);
      ElectionKeeps(c, c.RemoveProvider(s, env));
    }
  }

  lemma UnregisterKeeps(c: Core, s: Socket, env: Env)
    requires env.Valid() && CoreInv(c)
    ensures CoreInv(c.Unregister(s, env))
  {
    if s in c.registry.providers {
      RemoveProviderKeeps(c, s, env);
      EnsureKeeps(c.RemoveProvider(s, env).Send(s, Ok(None), env), env);
    }
  }

  lemma PruneKeeps(c: Core, env: Env)
    requires env.Valid() && CoreInv(c)
    ensures CoreInv(c.Prune(env))
  {
    RecomputeKeeps(c, env);
    EnsureKeeps(c.Recompute(env), env);
  }

  lemma SessionOpKeeps(c: Core, op: Op, env: Env)
    requires op.DoCreate? || op.DoOpen? || op.DoReprompt? || op.DoPrompt? || op.DoError? || op.DoInfo?
    requires env.Valid() && CoreInv(c)
    ensures CoreInv(ApplyOne(c, op, env))
  {
    hide QueueInv, Env.Valid, LifeOf, Core.Route;
    match op
    case DoCreate(id, source, context) =>
      CreateKeeps(c, id, source, context, env);
    case DoOpen(id, source, context, prompt, clearError) =>
      CreateKeeps(c, id, source, context, env);
      var c1 := c.Create(id, source, context, env);
      if id in c1.store {
        UpdateKeeps(c1, c1.store[id].SetPrompt(prompt, false, clearError), env);
      }
    case DoReprompt(id, cur, max, prompt) =>
      var c1 := c.UpdatePinentryRetry(id, cur, max);
      assert CoreInv(c1);
      if id in c1.store {
        UpdateKeeps(c1, c1.store[id].SetPrompt(prompt, false, false), env);
      }
    case DoPrompt(id, prompt, echo) =>
      if id in c.store {
        UpdateKeeps(c, c.store[id].SetPrompt(prompt, echo, true), env);
      }
    case DoError(id, error) =>
      if id in c.store {
        UpdateKeeps(c, c.store[id].SetError(error), env);
      }
    case DoInfo(id, info) =>
      if id in c.store {
        UpdateKeeps(c, c.store[id].SetInfo(info), env);
      }
  }

  lemma ClosingOpKeeps(c: Core, op: Op, env: Env)
    requires op.DoClose? || op.DoCloseFlow? || op.DoComplete?
    requires env.Valid() && CoreInv(c)
    ensures CoreInv(ApplyOne(c, op, env))
  {
    hide CoreInv;
    match op
    case DoClose(id, result) => CloseKeeps(c, id, result, env);
    case DoCloseFlow(id, result, error) => CloseFlowKeeps(c, id, result, error, env);
    case DoComplete(id, success) => CompleteKeeps(c, id, success, env);
  }

  lemma ProviderOpKeeps(c: Core, op: Op, env: Env)
    requires op.DoRegister? || op.DoHeartbeat? || op.DoUnregister? || op.DoRemoveProvider? || op.DoPrune? || op.DoEnsure?
    requires env.Valid() && CoreInv(c)
    ensures CoreInv(ApplyOne(c, op, env))
  {
    hide CoreInv;
    match op
    case DoRegister(s, msg) => RegisterKeeps(c, s, msg, env);
    case DoHeartbeat(s) => HeartbeatKeeps(c, s, env);
    case DoUnregister(s) => UnregisterKeeps(c, s, env);
    case DoRemoveProvider(s) => RemoveProviderKeeps(c, s, env);
    case DoPrune => PruneKeeps(c, env);
    case DoEnsure => EnsureKeeps(c, env);
  }

  lemma PeerOpKeeps(c: Core, op: Op, env: Env)
    requires op.Say? || op.Answer? || op.DoSubscribe? || op.DoUnsubscribe? || op.DoNext? || op.DoRemoveWaiter?
    requires CoreInv(c)
    ensures CoreInv(ApplyOne(c, op, env))
  {
    hide Elected, LauncherInv, QueueInv, LifeOf;
    if op.DoNext? {
      NextKeeps(c.queue, op.s);
    } else if op.DoRemoveWaiter? {
      RemoveWaiterKeeps(c.queue, op.s);
    }
  }

  lemma OpKeeps(c: Core, op: Op, env: Env)
    requires env.Valid() && CoreInv(c)
    ensures CoreInv(ApplyOne(c, op, env))
  {
    hide ApplyOne, CoreInv;
    if op.DoClose? || op.DoCloseFlow? || op.DoComplete? {
      ClosingOpKeeps(c, op, env);
    } else if op.DoRegister? || op.DoHeartbeat? || op.DoUnregister? || op.DoRemoveProvider? || op.DoPrune? || op.DoEnsure? {
      ProviderOpKeeps(c, op, env);
    } else if op.Say? || op.Answer? || op.DoSubscribe? || op.DoUnsubscribe? || op.DoNext? || op.DoRemoveWaiter? {
      PeerOpKeeps(c, op, env);
    } else {
      SessionOpKeeps(c, op, env);
    }
  }

  /** Any sequence of agent calls keeps the invariant. */
  lemma {:induction false} ApplyKeeps(c: Core, ops: seq<Op>, env: Env)
    requires env.Valid() && CoreInv(c)
    ensures CoreInv(Apply(c, ops, env))
    decreases |ops|
  {
    if ops != [] {
      OpKeeps(c, ops[0], env);
      ApplyKeeps(ApplyOne(c, ops[0], env), ops[1..], env);
    }
  }
}
