/** Who is registered as a provider after every input, from the state before. */
module Registrations {
  import opened Base
  import opened Sessions
  import opened EventQueues
  import opened Environments
  import opened ProviderRegistries
  import opened ProviderLaunchers
  import opened AgentCore
  import opened CoreInvariants
  import opened CoreFrames
  import opened KeyringManagers
  import opened PinentryManagers
  import opened PolkitListeners
  import opened Daemons
  import opened HandlerCalls
  import opened TableAgreement

  /** The registrations as the input leaves them, before any election. */
  function Enrolled(d: Daemon, input: Input, env: Env): map<Socket, Provider> {
    var ps := d.core.registry.providers;
    match input
    case RegisterInput(s, msg) =>
      var name := if msg.name == "" then "unknown" else msg.name;
      var kind := if msg.kind == "" then name else msg.kind;
      var priority := if msg.priority.Some? then msg.priority.value
                      else if kind == "quickshell" then 100 else if kind == "fallback" then 10 else 50;
      ps[s := Provider(if s in ps && ps[s].id != "" then ps[s].id else env.uuid, name, kind, priority, env.stamp)]
    case HeartbeatInput(s) =>
      if s in ps then ps[s := Provider(ps[s].id, ps[s].name, ps[s].kind, ps[s].priority, env.stamp)] else ps
    case UnregisterInput(s) => ps - {s}
    case DisconnectInput(s) => ps - {s}
    case _ => ps
  }

  /** A provider registers, shows a sign of life or leaves; the maintenance timer fires; or the last session is closed. */
  predicate HoldsElection(d: Daemon, input: Input, env: Env) {
    || input.RegisterInput? || input.MaintenanceTimer?
    || ((input.HeartbeatInput? || input.UnregisterInput? || input.DisconnectInput?) && input.s in d.core.registry.providers)
    || (d.core.store != map[] && Handle(d, input, env).core.store == map[])
  }

  /** Those whose connection stands and whose last sign of life is no more than fifteen seconds old. */
  function Alive(ps: map<Socket, Provider>, env: Env): map<Socket, Provider> {
    map s | s in ps && s in env.connected && env.now - ps[s].lastHeartbeat <= 15000 :: ps[s]
  }

  lemma ElectsTheAlive(r: Registry, env: Env)
    requires env.Valid()
    ensures r.Recompute(env).providers == Alive(r.providers, env)
  {
    RecomputeElects(r, env);
    assert Survivors(r.providers, env) == Alive(r.providers, env);
  }

  lemma AliveTwice(ps: map<Socket, Provider>, env: Env)
    ensures Alive(Alive(ps, env), env) == Alive(ps, env)
  {
  }

  // ---- agent calls

  /** An election was held exactly if the last session went. */
  ghost predicate ElectsWhenIdle(c: Core, c': Core, env: Env) {
    && (c.store == map[] ==> c'.store == map[])
    && c'.registry == if c.store != map[] && c'.store == map[] then c.registry.Recompute(env) else c.registry
  }

  /** No session went, and no election was held. */
  ghost predicate KeepsRegistry(c: Core, c': Core) {
    c.store.Keys <= c'.store.Keys && c'.registry == c.registry
  }

  lemma UpdateKeeps(c: Core, d: SessionData, env: Env)
    requires d.id in c.store
    ensures KeepsRegistry(c, c.Update(d, env)) && c.Update(d, env).store.Keys == c.store.Keys
  {
    RouteKeepsStore(c.(store := c.store[d.id := d]), d.UpdatedEvent(), env);
  }

  lemma CreateKeepsRegistry(c: Core, op: Op, env: Env)
    requires StoreInv(c.store) && Opening(op)
    ensures KeepsRegistry(c, ApplyOne(c, op, env))
  {
    hide Core.Create, Core.Update;
    CreateLive(c, op.id, op.source, op.context, env);
    CreateFrame(c, op.id, op.source, op.context, env);
    var c1 := c.Create(op.id, op.source, op.context, env);
    if op.DoOpen? && op.id !in c.store {
      UpdateKeeps(c1, c1.store[op.id].SetPrompt(op.prompt, false, op.clearError), env);
    }
  }

  lemma TouchKeeps(c: Core, op: Op, env: Env)
    requires StoreInv(c.store) && (op.DoReprompt? || op.DoPrompt? || op.DoError? || op.DoInfo?)
    ensures KeepsRegistry(c, ApplyOne(c, op, env)) && ApplyOne(c, op, env).store.Keys == c.store.Keys
  {
    hide Core.Update;
    if op.id in c.store {
      var d := c.store[op.id];
      match op
      case DoPrompt(id, prompt, echo) => UpdateKeeps(c, d.SetPrompt(prompt, echo, true), env);
      case DoError(id, error) => UpdateKeeps(c, d.SetError(error), env);
      case DoInfo(id, info) => UpdateKeeps(c, d.SetInfo(info), env);
      case DoReprompt(id, cur, max, prompt) =>
        var c1 := c.UpdatePinentryRetry(id, cur, max);
        assert c1.store.Keys == c.store.Keys;
        UpdateKeeps(c1, c1.store[id].SetPrompt(prompt, false, false), env);
    }
  }

  lemma SameKeysIdle(c: Core, c': Core, env: Env)
    requires KeepsRegistry(c, c') && c'.store.Keys == c.store.Keys
    ensures ElectsWhenIdle(c, c', env)
  {
    assert c.store == map[] <==> c.store.Keys == {};
    assert c'.store == map[] <==> c'.store.Keys == {};
  }

  lemma CloseElects(c: Core, id: Id, result: Result, success: bool, env: Env)
    ensures ElectsWhenIdle(c, c.Close(id, result, env), env) && ElectsWhenIdle(c, c.Complete(id, success, env), env)
  {
    hide Core.Route, Registry.Recompute, Core.Announce;
    if id in c.store {
      var c1 := c.(store := c.store - {id});
      assert c.store != map[];
      RecomputeRegistry(c1, env);
      RouteKeepsStore(c1.RecomputeIfIdle(env), c.store[id].Close(result).ClosedEvent(), env);
      var e := c.store[id].Close(if success then Success else Cancelled).ClosedEvent();
      RouteKeepsStore(c1, e, env);
      RecomputeRegistry(c1.Route(e, env), env);
    }
  }

  lemma RecomputeRegistry(c: Core, env: Env)
    ensures c.Recompute(env).registry == c.registry.Recompute(env) && c.Recompute(env).store == c.store
  {
    hide Registry.Recompute;
  }

  lemma CloseFlowElects(c: Core, id: Id, result: Result, error: string, env: Env)
    requires StoreInv(c.store)
    ensures ElectsWhenIdle(c, c.CloseFlow(id, result, error, env), env)
  {
    hide Core.Close, Core.Update, Registry.Recompute;
    CloseElects(c, id, result, true, env);
    if id in c.store {
      var d := c.store[id].SetError(error);
      UpdateKeeps(c, d, env);
      SameKeysIdle(c, c.Update(d, env), env);
      CloseElects(c.Update(d, env), id, result, true, env);
      assert c.store != map[];
    }
  }

  /** Calls about sessions that open none, and messages. */
  predicate Settles(op: Op) {
    (IsSessionOp(op) && !Opening(op)) || op.Say? || op.Answer?
  }

  lemma SettlingElects(c: Core, op: Op, env: Env)
    requires StoreInv(c.store) && Settles(op)
    ensures ElectsWhenIdle(c, ApplyOne(c, op, env), env)
  {
    hide Core.Close, Core.Update, Core.Complete, Core.CloseFlow, Registry.Recompute, Core.UpdatePinentryRetry;
    match op
    case DoClose(id, result) => CloseElects(c, id, result, true, env);
    case DoComplete(id, success) => CloseElects(c, id, Success, success, env);
    case DoCloseFlow(id, result, error) => CloseFlowElects(c, id, result, error, env);
    case Say(_, _) =>
    case Answer(_, _) =>
    case _ =>
      hide ApplyOne;
      TouchKeeps(c, op, env);
      SameKeysIdle(c, ApplyOne(c, op, env), env);
  }

  lemma {:induction false} SettlingOps(c: Core, ops: seq<Op>, env: Env)
    requires env.Valid() && CoreInv(c) && forall i :: 0 <= i < |ops| ==> Settles(ops[i])
    ensures ElectsWhenIdle(c, Apply(c, ops, env), env)
    decreases |ops|
  {
    hide ApplyOne, Settles, Env.Valid;
    if ops != [] {
      SettlingElects(c, ops[0], env);
      OpKeeps(c, ops[0], env);
      SettlingOps(ApplyOne(c, ops[0], env), ops[1..], env);
    }
  }

  /** Calls that may open a session, and close none. */
  predicate Adds(op: Op) {
    Opening(op) || op.DoReprompt? || op.DoPrompt? || op.DoError? || op.DoInfo? || op.Say? || op.Answer?
  }

  lemma AddingKeeps(c: Core, op: Op, env: Env)
    requires StoreInv(c.store) && Adds(op)
    ensures KeepsRegistry(c, ApplyOne(c, op, env))
  {
    if Opening(op) {
      CreateKeepsRegistry(c, op, env);
    } else if !op.Say? && !op.Answer? {
      TouchKeeps(c, op, env);
    }
  }

  lemma {:induction false} AddingOps(c: Core, ops: seq<Op>, env: Env)
    requires env.Valid() && CoreInv(c) && forall i :: 0 <= i < |ops| ==> Adds(ops[i])
    ensures KeepsRegistry(c, Apply(c, ops, env))
    decreases |ops|
  {
    hide ApplyOne, Adds, Env.Valid;
    if ops != [] {
      AddingKeeps(c, ops[0], env);
      OpKeeps(c, ops[0], env);
      AddingOps(ApplyOne(c, ops[0], env), ops[1..], env);
    }
  }

  // ---- steps

  /** What the theorem says of one step. */
  ghost predicate ProvidersFollow(d: Daemon, input: Input, env: Env) {
    var r, r' := d.core.registry, Handle(d, input, env).core.registry;
    && r'.providers == (if HoldsElection(d, input, env) then Alive(Enrolled(d, input, env), env) else Enrolled(d, input, env))
    && (!HoldsElection(d, input, env) ==> r' == r)
  }

  lemma SettlingStep(d: Daemon, input: Input, env: Env)
    requires env.Valid() && CoreInv(d.core) && Enrolled(d, input, env) == d.core.registry.providers
    requires !SingleCall(input) && !input.DisconnectInput?
    requires forall i :: 0 <= i < |EffectOf(d, input, env).ops| ==> Settles(EffectOf(d, input, env).ops[i])
    ensures ProvidersFollow(d, input, env)
  {
    hide Apply, EffectOf, Env.Valid, Alive, Registry.Recompute;
    SettlingOps(d.core, EffectOf(d, input, env).ops, env);
    ElectsTheAlive(d.core.registry, env);
  }

  lemma AddingStep(d: Daemon, input: Input, env: Env)
    requires env.Valid() && CoreInv(d.core) && (input.KeyringInput? || input.PinentryInput? || input.PolkitInitiate?)
    ensures ProvidersFollow(d, input, env)
  {
    hide Apply, EffectOf, Env.Valid, Alive, Registry.Recompute;
    AddingCalls(d, input, env);
    AddingOps(d.core, EffectOf(d, input, env).ops, env);
    var m, m' := d.core.store, Handle(d, input, env).core.store;
    assert m.Keys <= m'.Keys;
    assert m != map[] ==> m' != map[] by {
      if m' == map[] {
        assert m.Keys <= {};
      }
    }
  }

  lemma AddingCalls(d: Daemon, input: Input, env: Env)
    requires input.KeyringInput? || input.PinentryInput? || input.PolkitInitiate?
    ensures forall i :: 0 <= i < |EffectOf(d, input, env).ops| ==> Adds(EffectOf(d, input, env).ops[i])
  {
    hide PinTables.ResolveRetry, PinTables.Pended, PinentryContext, KeyringContext, PolkitContext;
  }

  lemma SettlingCalls(d: Daemon, input: Input, env: Env)
    requires !SingleCall(input) && !input.DisconnectInput? && !input.KeyringInput? && !input.PinentryInput? && !input.PolkitInitiate?
    ensures forall i :: 0 <= i < |EffectOf(d, input, env).ops| ==> Settles(EffectOf(d, input, env).ops[i])
  {
    if !Refused(d, input) {
      hide EffectOf;
      HandlersCallUsually(d, input, env);
    }
  }

  lemma SingleStep(d: Daemon, input: Input, env: Env)
    requires env.Valid() && SingleCall(input)
    ensures ProvidersFollow(d, input, env)
  {
    hide Apply, Env.Valid, Alive, Registry.Recompute, ApplyOne, HoldsElection;
    var op := EffectOf(d, input, env).ops[0];
    assert EffectOf(d, input, env).ops == [op];
    ApplySingle(d.core, op, env);
    OtherOpLive(d.core, op, env);
    SingleRegistry(d.core, op, env);
    SingleElects(d, input, env);
  }

  lemma SingleElects(d: Daemon, input: Input, env: Env)
    requires SingleCall(input) && Handle(d, input, env).core.store == d.core.store
    ensures HoldsElection(d, input, env) <==>
            input.RegisterInput? || input.MaintenanceTimer? || ((input.HeartbeatInput? || input.UnregisterInput?) && input.s in d.core.registry.providers)
  {
    hide Handle;
  }

  lemma SingleRegistry(c: Core, op: Op, env: Env)
    requires env.Valid() && (op.DoSubscribe? || op.DoNext? || op.DoRegister? || op.DoHeartbeat? || op.DoUnregister? || op.DoPrune?)
    ensures var r, r' := c.registry, ApplyOne(c, op, env).registry;
            match op
            case DoRegister(s, msg) => r'.providers == Alive(r.Register(s, msg, env).providers, env)
            case DoHeartbeat(s) => if s in r.providers then r'.providers == Alive(r.Heartbeat(s, env).providers, env) else r' == r
            case DoUnregister(s) => if s in r.providers then r'.providers == Alive(r.Remove(s).providers, env) else r' == r
            case DoPrune => r'.providers == Alive(r.providers, env)
            case _ => r' == r
  {
    hide Env.Valid, Alive, Registry.Recompute, Registry.Register, Registry.Heartbeat, Registry.Remove, Launcher.EnsureFallback;
    match op
    case DoRegister(s, msg) => ElectsTheAlive(c.registry.Register(s, msg, env), env);
    case DoHeartbeat(s) =>
      if s in c.registry.providers {
        ElectsTheAlive(c.registry.Heartbeat(s, env), env);
      }
    case DoUnregister(s) => ElectsTheAlive(c.registry.Remove(s), env);
    case DoPrune => ElectsTheAlive(c.registry, env);
    case _ =>
  }

  lemma DisconnectStep(d: Daemon, s: Socket, env: Env)
    requires env.Valid() && CoreInv(d.core)
    ensures ProvidersFollow(d, DisconnectInput(s), env)
  {
    hide Apply, Env.Valid, Alive, Registry.Recompute, ApplyOne, Disconnect, Cleanup, CoreInv;
    var front, cleanup := [DoUnsubscribe(s), DoRemoveProvider(s), DoRemoveWaiter(s)], Cleanup(d, s, env);
    DisconnectCalls(d, s, env);
    var c1 := Apply(d.core, front, env);
    var c2 := Apply(c1, cleanup, env);
    ApplyConcat(d.core, front + cleanup, [DoEnsure], env);
    ApplyConcat(d.core, front, cleanup, env);
    ApplySingle(c2, DoEnsure, env);
    OtherOpLive(c2, DoEnsure, env);
    ApplyKeeps(d.core, front, env);
    FrontRegistry(d.core, s, env);
    SettlingOps(c1, cleanup, env);
    EnsureRegistry(c2, env);
    ElectsTheAlive(c1.registry, env);
    var r := d.core.registry;
    if s in r.providers {
      ElectsTheAlive(r.Remove(s), env);
      AliveTwice(r.Remove(s).providers, env);
    } else {
      assert r.providers - {s} == r.providers;
    }
    assert Handle(d, DisconnectInput(s), env).core == ApplyOne(c2, DoEnsure, env);
  }

  lemma EnsureRegistry(c: Core, env: Env)
    ensures ApplyOne(c, DoEnsure, env).registry == c.registry
  {
  }

  lemma FrontRegistry(c: Core, s: Socket, env: Env)
    ensures var c' := Apply(c, [DoUnsubscribe(s), DoRemoveProvider(s), DoRemoveWaiter(s)], env);
            && c'.store == c.store
            && c'.registry == if s in c.registry.providers then c.registry.Remove(s).Recompute(env) else c.registry
  {
    hide Registry.Recompute, Without, Apply, ApplyOne;
    var first, second, third := DoUnsubscribe(s), DoRemoveProvider(s), DoRemoveWaiter(s);
    assert [first, second, third] == [first] + [second] + [third];
    ApplyConcat(c, [first] + [second], [third], env);
    ApplyConcat(c, [first], [second], env);
    ApplySingle(c, first, env);
    var c1 := ApplyOne(c, first, env);
    ApplySingle(c1, second, env);
    ApplySingle(ApplyOne(c1, second, env), third, env);
    FrontOps(c, s, env);
    FrontOps(c1, s, env);
    FrontOps(ApplyOne(c1, second, env), s, env);
  }

  lemma FrontOps(c: Core, s: Socket, env: Env)
    ensures ApplyOne(c, DoUnsubscribe(s), env) == c.(subscribers := c.subscribers - {s})
    ensures var c' := ApplyOne(c, DoRemoveProvider(s), env);
            c'.store == c.store && c'.registry == if s in c.registry.providers then c.registry.Remove(s).Recompute(env) else c.registry
    ensures ApplyOne(c, DoRemoveWaiter(s), env) == c.(queue := ApplyOne(c, DoRemoveWaiter(s), env).queue)
  {
    hide Registry.Recompute, Without;
    RecomputeRegistry(c.(registry := c.registry.Remove(s)), env);
  }

  lemma StepFollows(d: Daemon, input: Input, env: Env)
    requires env.Valid() && DaemonInv(d)
    ensures ProvidersFollow(d, input, env)
  {
    hide Env.Valid, Handle, Alive, CoreInv, EffectOf, ProvidersFollow;
    if SingleCall(input) {
      SingleStep(d, input, env);
    } else if input.DisconnectInput? {
      DisconnectStep(d, input.s, env);
    } else if input.KeyringInput? || input.PinentryInput? || input.PolkitInitiate? {
      AddingStep(d, input, env);
    } else {
      SettlingCalls(d, input, env);
      SettlingStep(d, input, env);
    }
  }

  /** Every input, exactly: who is registered afterwards, and under what name, kind, priority and last sign of life. */
  lemma StepProviders(d: Daemon, input: Input, env: Env)
    requires env.Valid() && DaemonInv(d)
    ensures Handle(d, input, env).core.registry.providers ==
            if HoldsElection(d, input, env) then Alive(Enrolled(d, input, env), env) else Enrolled(d, input, env)
  {
    hide Env.Valid, Handle, DaemonInv, HoldsElection, Enrolled;
    StepFollows(d, input, env);
  }

  /** `p` comes before `q`: by priority, and among equals by the later sign of life. */
  predicate AtLeastAsGood(p: Provider, q: Provider) {
    p.priority > q.priority || (p.priority == q.priority && p.lastHeartbeat >= q.lastHeartbeat)
  }

  /** The provider in charge after a step is in first place among those registered, there is one unless nobody is, and it
      changes in an election only. */
  lemma StepWinner(d: Daemon, input: Input, env: Env)
    requires env.Valid() && DaemonInv(d)
    ensures var r, r' := d.core.registry, Handle(d, input, env).core.registry;
            && (r'.active.None? <==> r'.providers == map[])
            && (r'.active.Some? ==>
                  && r'.active.value in r'.providers
                  && forall t :: t in r'.providers ==> AtLeastAsGood(r'.providers[r'.active.value], r'.providers[t]))
            && (!HoldsElection(d, input, env) ==> r'.active == r.active)
  {
    hide Env.Valid, Handle, HoldsElection, Enrolled;
    StepFollows(d, input, env);
    HandleKeeps(d, input, env);
    assert Elected(Handle(d, input, env).core.registry);
    hide DaemonInv;
  }

  // ---- subscribers

  lemma OpSubscribers(c: Core, op: Op, env: Env)
    ensures ApplyOne(c, op, env).subscribers ==
            if op.DoSubscribe? then c.subscribers + {op.s} else if op.DoUnsubscribe? then c.subscribers - {op.s} else c.subscribers
  {
    hide Registry.Recompute, Registry.Register, Core.Route, Core.Inbox, Launcher.EnsureFallback, Without;
    if IsSessionOp(op) {
      SessionOpFrame(c, op, env);
    }
  }

  lemma {:induction false} OpsSubscribers(c: Core, ops: seq<Op>, env: Env)
    requires forall i :: 0 <= i < |ops| ==> !ops[i].DoSubscribe? && !ops[i].DoUnsubscribe?
    ensures Apply(c, ops, env).subscribers == c.subscribers
    decreases |ops|
  {
    hide ApplyOne;
    if ops != [] {
      OpSubscribers(c, ops[0], env);
      OpsSubscribers(ApplyOne(c, ops[0], env), ops[1..], env);
    }
  }

  /** Peers become subscribers by asking, and stop by disconnecting. */
  lemma StepSubscribers(d: Daemon, input: Input, env: Env)
    ensures Handle(d, input, env).core.subscribers ==
            if input.SubscribeInput? then d.core.subscribers + {input.s}
            else if input.DisconnectInput? then d.core.subscribers - {input.s}
            else d.core.subscribers
  {
    hide Apply, ApplyOne, Disconnect;
    if input.SubscribeInput? {
      ApplySingle(d.core, DoSubscribe(input.s), env);
      OpSubscribers(d.core, DoSubscribe(input.s), env);
    } else if input.DisconnectInput? {
      var s := input.s;
      var rest := [DoRemoveProvider(s), DoRemoveWaiter(s)] + Cleanup(d, s, env) + [DoEnsure];
      DisconnectCalls(d, s, env);
      assert Disconnect(d, s, env).ops == [DoUnsubscribe(s)] + rest;
      ApplyConcat(d.core, [DoUnsubscribe(s)], rest, env);
      ApplySingle(d.core, DoUnsubscribe(s), env);
      OpSubscribers(d.core, DoUnsubscribe(s), env);
      OpsSubscribers(ApplyOne(d.core, DoUnsubscribe(s), env), rest, env);
    } else {
      NobodySubscribes(d, input, env);
      OpsSubscribers(d.core, EffectOf(d, input, env).ops, env);
    }
  }

  lemma NobodySubscribes(d: Daemon, input: Input, env: Env)
    requires !input.SubscribeInput? && !input.DisconnectInput?
    ensures var ops := EffectOf(d, input, env).ops; forall i :: 0 <= i < |ops| ==> !ops[i].DoSubscribe? && !ops[i].DoUnsubscribe?
  {
    if !SingleCall(input) && !Refused(d, input) {
      hide EffectOf;
      HandlersCallUsually(d, input, env);
    }
  }
}
