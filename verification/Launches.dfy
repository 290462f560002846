/** When the fallback UI is called for, and when it is really launched: exactly, for every input. */
module Launches {
  import opened Base
  import opened Sessions
  import opened Environments
  import opened ProviderRegistries
  import opened ProviderLaunchers
  import opened AgentCore
  import opened CoreInvariants
  import opened KeyringManagers
  import opened PinentryManagers
  import opened PolkitListeners
  import opened Daemons
  import opened HandlerCalls
  import opened TableAgreement
  import opened StepOutcome

  /** The launcher was called once, for sessions without a provider, or not at all. */
  predicate Called(c: Core, c': Core, called: bool, env: Env) {
    && c'.fallbackCalls == c.fallbackCalls + (if called then 1 else 0)
    && c'.launcher == if called then c.launcher.EnsureFallback(false, true, env) else c.launcher
  }

  /** Agent calls that never call the launcher. */
  predicate NoCall(op: Op) {
    !op.DoCreate? && !op.DoOpen? && !op.DoUnregister? && !op.DoPrune? && !op.DoEnsure?
  }

  lemma RouteNoCall(c: Core, e: Event, env: Env)
    ensures Called(c, c.Route(e, env), false, env) && c.Route(e, env).registry == c.registry && c.Route(e, env).store == c.store
  {
    RouteChanges(c, e, env);
  }

  lemma UpdateNoCall(c: Core, d: SessionData, env: Env)
    ensures Called(c, c.Update(d, env), false, env)
  {
    RouteNoCall(c.(store := c.store[d.id := d]), d.UpdatedEvent(), env);
  }

  lemma CloseNoCall(c: Core, id: Id, result: Result, success: bool, env: Env)
    ensures Called(c, c.Close(id, result, env), false, env) && Called(c, c.Complete(id, success, env), false, env)
  {
    hide Core.Route, Registry.Recompute, Core.Announce;
    if id in c.store {
      var c1 := c.(store := c.store - {id});
      RecomputeNoCall(c1, env);
      RouteNoCall(c1.RecomputeIfIdle(env), c.store[id].Close(result).ClosedEvent(), env);
      var e := c.store[id].Close(if success then Success else Cancelled).ClosedEvent();
      RouteNoCall(c1, e, env);
      RecomputeNoCall(c1.Route(e, env), env);
    }
  }

  lemma RecomputeNoCall(c: Core, env: Env)
    ensures Called(c, c.Recompute(env), false, env) && c.Recompute(env).store == c.store
  {
    hide Registry.Recompute;
  }

  lemma SessionNoCall(c: Core, op: Op, env: Env)
    requires op.DoReprompt? || op.DoPrompt? || op.DoError? || op.DoInfo?
    ensures Called(c, ApplyOne(c, op, env), false, env)
  {
    hide Core.Route, Core.Update, Called;
    assert Called(c, c, false, env) by { CalledNot(c, c, env); }
    if op.id in c.store {
      var d := c.store[op.id];
      match op
      case DoPrompt(id, prompt, echo) => UpdateNoCall(c, d.SetPrompt(prompt, echo, true), env);
      case DoError(id, error) => UpdateNoCall(c, d.SetError(error), env);
      case DoInfo(id, info) => UpdateNoCall(c, d.SetInfo(info), env);
      case DoReprompt(id, cur, max, prompt) =>
        var c1 := c.UpdatePinentryRetry(id, cur, max);
        UpdateNoCall(c1, c1.store[id].SetPrompt(prompt, false, false), env);
        CalledFrom(c, c1, c1.Update(c1.store[id].SetPrompt(prompt, false, false), env), env);
    }
  }

  lemma CalledNot(c: Core, c': Core, env: Env)
    requires c'.launcher == c.launcher && c'.fallbackCalls == c.fallbackCalls
    ensures Called(c, c', false, env)
  {
  }

  lemma CalledFrom(c: Core, c1: Core, c2: Core, env: Env)
    requires c1.launcher == c.launcher && c1.fallbackCalls == c.fallbackCalls && Called(c1, c2, false, env)
    ensures Called(c, c2, false, env)
  {
  }

  lemma CloseFlowNoCall(c: Core, id: Id, result: Result, error: string, env: Env)
    ensures Called(c, c.CloseFlow(id, result, error, env), false, env)
  {
    hide Core.Close, Core.Update;
    CloseNoCall(c, id, result, true, env);
    if id in c.store {
      UpdateNoCall(c, c.store[id].SetError(error), env);
      CloseNoCall(c.Update(c.store[id].SetError(error), env), id, result, true, env);
    }
  }

  lemma OpNoCall(c: Core, op: Op, env: Env)
    requires NoCall(op)
    ensures Called(c, ApplyOne(c, op, env), false, env)
  {
    hide Core.Route, Registry.Recompute, Registry.Register, Core.Update, Core.Close, Core.Complete, Core.CloseFlow, Core.Inbox;
    match op
    case DoClose(id, result) => CloseNoCall(c, id, result, true, env);
    case DoComplete(id, success) => CloseNoCall(c, id, Success, success, env);
    case DoCloseFlow(id, result, error) => CloseFlowNoCall(c, id, result, error, env);
    case _ =>
      if op.DoReprompt? || op.DoPrompt? || op.DoError? || op.DoInfo? {
        SessionNoCall(c, op, env);
      }
  }

  lemma {:induction false} OpsNoCall(c: Core, ops: seq<Op>, env: Env)
    requires forall i :: 0 <= i < |ops| ==> NoCall(ops[i])
    ensures Called(c, Apply(c, ops, env), false, env)
    decreases |ops|
  {
    hide ApplyOne;
    if ops != [] {
      OpNoCall(c, ops[0], env);
      OpsNoCall(ApplyOne(c, ops[0], env), ops[1..], env);
    }
  }

  /** A session is created for nobody to see. */
  lemma CreateCall(c: Core, id: Id, source: Source, context: Context, env: Env)
    requires id !in c.store
    ensures Called(c, c.Create(id, source, context, env), !c.registry.HasActive(), env)
  {
    hide Core.Route, Launcher.EnsureFallback;
    var d := NewSession(id, source, context);
    RouteNoCall(c.(store := c.store[id := d]), d.CreatedEvent(), env);
    assert id in c.store[id := d];
  }

  lemma OpenCall(c: Core, op: Op, env: Env)
    requires Opening(op) && op.id !in c.store
    ensures Called(c, ApplyOne(c, op, env), !c.registry.HasActive(), env)
  {
    hide Core.Create, Core.Update, Launcher.EnsureFallback;
    CreateCall(c, op.id, op.source, op.context, env);
    if op.DoOpen? {
      var c1 := c.Create(op.id, op.source, op.context, env);
      if op.id in c1.store {
        UpdateNoCall(c1, c1.store[op.id].SetPrompt(op.prompt, false, op.clearError), env);
      }
    }
  }

  /** Sessions that lost their last provider. */
  lemma EnsureCall(c: Core, env: Env)
    ensures var c' := c.EnsureIfUnattended(env); Called(c, c', c'.Unattended(), env)
  {
  }

  lemma UnregisterCall(c: Core, s: Socket, env: Env)
    ensures var c' := c.Unregister(s, env); Called(c, c', s in c.registry.providers && c'.Unattended(), env)
  {
    hide Registry.Recompute, Core.Announce, Launcher.EnsureFallback, Core.EnsureIfUnattended, Core.Inbox;
    if s in c.registry.providers {
      var c1 := c.(registry := c.registry.Remove(s));
      RecomputeNoCall(c1, env);
      EnsureCall(c1.Recompute(env).Send(s, Ok(None), env), env);
    }
  }

  lemma PruneCall(c: Core, env: Env)
    ensures var c' := c.Prune(env); Called(c, c', c'.Unattended(), env)
  {
    hide Core.Recompute, Launcher.EnsureFallback, Core.EnsureIfUnattended;
    RecomputeNoCall(c, env);
    EnsureCall(c.Recompute(env), env);
  }

  // ---- steps

  /** A session is creation while no provider is active; or a provider leaves, a peer disconnects or the maintenance timer
      fires, and live sessions are left with nobody. */
  predicate CallsFor(d: Daemon, input: Input, env: Env) {
    || (Opens(d, input, env) != map[] && !d.core.registry.HasActive())
    || ((input.DisconnectInput? || input.MaintenanceTimer? || (input.UnregisterInput? && input.s in d.core.registry.providers))
        && Handle(d, input, env).core.Unattended())
  }

  lemma PinentryRequestCall(d: Daemon, s: Socket, pid: Pid, msg: PinentryMessage, env: Env)
    ensures var input := PinentryInput(s, pid, msg);
            Called(d.core, Handle(d, input, env).core, Opens(d, input, env) != map[] && !d.core.registry.HasActive(), env)
  {
    hide ApplyOne, Apply, PinTables.ResolveRetry, PinTables.Pended, PinentryContext, ParsePinentry, Called, Registry.HasActive;
    var t, store, r := d.pinentry, d.core.store, ParsePinentry(msg, s, pid, env);
    var ops := PinentryHandleRequest(t, store, msg, s, pid, env).1;
    assert r.cookie == ParsePinentry(msg, s, pid, env).cookie;
    if t.OwnedByOther(r.cookie, pid) || r.cookie in store {
      OpsNoCall(d.core, ops, env);
    } else {
      assert r.cookie in Opens(d, PinentryInput(s, pid, msg), env);
      var (_, cur, max) := t.ResolveRetry(r);
      var retried := if r.cookie in t.awaiting then [DoError(r.cookie, OrFailed(r.error))] else [];
      var creation := DoOpen(r.cookie, Pinentry, PinentryContext(r, cur, max, env), r.prompt, false);
      var complained := if r.error != "" && r.cookie !in t.reported then [DoError(r.cookie, r.error)] else [];
      NothingToUpdate(d.core, retried, r.cookie, env);
      OpenThenQuiet(d.core, retried, creation, complained, env);
    }
  }

  lemma NothingToUpdate(c: Core, ops: seq<Op>, id: Id, env: Env)
    requires id !in c.store && (ops == [] || exists error :: ops == [DoError(id, error)])
    ensures Apply(c, ops, env) == c
  {
    if ops != [] {
      ApplySingle(c, ops[0], env);
    }
  }

  lemma OpenThenQuiet(c: Core, before: seq<Op>, creation: Op, after: seq<Op>, env: Env)
    requires Apply(c, before, env) == c && Opening(creation) && creation.id !in c.store
    requires forall i :: 0 <= i < |after| ==> NoCall(after[i])
    ensures Called(c, Apply(c, before + [creation] + after, env), !c.registry.HasActive(), env)
  {
    hide ApplyOne, Apply;
    ApplyConcat(c, before + [creation], after, env);
    ApplyConcat(c, before, [creation], env);
    ApplySingle(c, creation, env);
    OpenCall(c, creation, env);
    OpsNoCall(ApplyOne(c, creation, env), after, env);
  }

  lemma SingleOpenCall(c: Core, op: Op, env: Env)
    requires Opening(op) && op.id !in c.store
    ensures Called(c, Apply(c, [op], env), !c.registry.HasActive(), env)
  {
    hide ApplyOne, Apply;
    ApplySingle(c, op, env);
    OpenCall(c, op, env);
  }

  lemma KeyringRequestCall(d: Daemon, s: Socket, pid: Pid, msg: KeyringMessage, env: Env)
    ensures var input := KeyringInput(s, pid, msg);
            Called(d.core, Handle(d, input, env).core, Opens(d, input, env) != map[] && !d.core.registry.HasActive(), env)
  {
    hide ApplyOne, Apply, KeyringContext, Registry.HasActive;
    var ops := KeyringHandleRequest(d.keyring, d.core.store, msg, s, pid, env).1;
    if KeyringCookie(msg, env) in d.core.store {
      OpsNoCall(d.core, ops, env);
    } else {
      assert KeyringCookie(msg, env) in Opens(d, KeyringInput(s, pid, msg), env);
      SingleOpenCall(d.core, ops[0], env);
    }
  }

  lemma PolkitRequestCall(d: Daemon, input: Input, env: Env)
    requires DaemonInv(d) && input.PolkitInitiate?
    ensures Called(d.core, Handle(d, input, env).core, Opens(d, input, env) != map[] && !d.core.registry.HasActive(), env)
  {
    hide ApplyOne, Apply, PolkitContext, Registry.HasActive, Called;
    PolkitRequestCalls(d, input, env);
    var ops := EffectOf(d, input, env).ops;
    if ops == [] {
      OpsNoCall(d.core, ops, env);
    } else {
      SingleOpenCall(d.core, ops[0], env);
    }
  }

  lemma PolkitRequestCalls(d: Daemon, input: Input, env: Env)
    requires DaemonInv(d) && input.PolkitInitiate?
    ensures var ops := EffectOf(d, input, env).ops;
            if Opens(d, input, env) == map[] then ops == []
            else |ops| == 1 && ops[0].DoCreate? && ops[0].id !in d.core.store
  {
    hide CoreInv, AttemptInv, PinentryInv, KeyringInv, PolkitContext;
    var m := LiveSessions(d.core.store);
    assert PolkitInv(d.polkit, m);
    assert input.cookie in d.polkit.states ==> input.cookie in m;
    assert input.cookie !in d.core.store && input.hasIdentity ==> input.cookie in Opens(d, input, env);
  }

  lemma DisconnectCall(d: Daemon, s: Socket, env: Env)
    ensures var c' := Handle(d, DisconnectInput(s), env).core; Called(d.core, c', c'.Unattended(), env)
  {
    hide ApplyOne, Apply, Disconnect, Core.EnsureIfUnattended, Called;
    var front := [DoUnsubscribe(s), DoRemoveProvider(s), DoRemoveWaiter(s)] + Cleanup(d, s, env);
    DisconnectCalls(d, s, env);
    assert forall i :: 0 <= i < |front| ==> NoCall(front[i]);
    OpsNoCall(d.core, front, env);
    ApplyConcat(d.core, front, [DoEnsure], env);
    var c1 := Apply(d.core, front, env);
    ApplySingle(c1, DoEnsure, env);
    EnsuredCall(d.core, c1, env);
  }

  lemma EnsuredCall(c: Core, c1: Core, env: Env)
    requires Called(c, c1, false, env)
    ensures var c' := ApplyOne(c1, DoEnsure, env); Called(c, c', c'.Unattended(), env)
  {
    EnsureCall(c1, env);
  }

  lemma SingleCallCall(d: Daemon, input: Input, env: Env)
    requires SingleCall(input)
    ensures Called(d.core, Handle(d, input, env).core, CallsFor(d, input, env), env)
  {
    hide Apply, ApplyOne, Registry.HasActive;
    var ops := EffectOf(d, input, env).ops;
    ApplySingle(d.core, ops[0], env);
    assert ops == [ops[0]];
    SingleOpCall(d.core, ops[0], env);
  }

  lemma SingleOpCall(c: Core, op: Op, env: Env)
    requires op.DoSubscribe? || op.DoNext? || op.DoRegister? || op.DoHeartbeat? || op.DoUnregister? || op.DoPrune?
    ensures var c' := ApplyOne(c, op, env);
            Called(c, c', c'.Unattended() && (op.DoPrune? || (op.DoUnregister? && op.s in c.registry.providers)), env)
  {
    hide Core.Unregister, Core.Prune, Core.Register, Core.Heartbeat, Core.Subscribe, Core.Next, Called;
    match op
    case DoUnregister(s) => UnregisterCall(c, s, env);
    case DoPrune => PruneCall(c, env);
    case _ => OpNoCall(c, op, env);
  }

  lemma OtherCall(d: Daemon, input: Input, env: Env)
    requires !SingleCall(input) && !input.DisconnectInput?
    requires !input.KeyringInput? && !input.PinentryInput? && !input.PolkitInitiate?
    ensures Called(d.core, Handle(d, input, env).core, false, env)
  {
    hide Called, Apply, EffectOf;
    QuietOtherwise(d, input, env);
    OpsNoCall(d.core, EffectOf(d, input, env).ops, env);
  }

  lemma QuietOtherwise(d: Daemon, input: Input, env: Env)
    requires !SingleCall(input) && !input.DisconnectInput?
    requires !input.KeyringInput? && !input.PinentryInput? && !input.PolkitInitiate?
    ensures forall i :: 0 <= i < |EffectOf(d, input, env).ops| ==> NoCall(EffectOf(d, input, env).ops[i])
  {
    if !Refused(d, input) {
      hide EffectOf;
      HandlersCallUsually(d, input, env);
    }
  }

  lemma StepCall(d: Daemon, input: Input, env: Env)
    requires DaemonInv(d)
    ensures Called(d.core, Handle(d, input, env).core, CallsFor(d, input, env), env)
  {
    hide Handle, Called, Registry.HasActive;
    if SingleCall(input) {
      SingleCallCall(d, input, env);
    } else {
      match input
      case DisconnectInput(s) => DisconnectCall(d, s, env);
      case KeyringInput(s, pid, msg) => KeyringRequestCall(d, s, pid, msg, env);
      case PinentryInput(s, pid, msg) => PinentryRequestCall(d, s, pid, msg, env);
      case PolkitInitiate(_, _, _, _, _, _) => PolkitRequestCall(d, input, env);
      case _ => OtherCall(d, input, env);
    }
  }

  /** Every step, exactly: the fallback UI is called for once if the step opens a session that nobody would see, or leaves
      live sessions to nobody by a departure; and it is really started, or tried, if moreover a launch is due. */
  lemma LaunchesExactlyWhenNeeded(d: Daemon, input: Input, env: Env)
    requires DaemonInv(d)
    ensures var c' := Handle(d, input, env).core;
            && c'.fallbackCalls == d.core.fallbackCalls + (if CallsFor(d, input, env) then 1 else 0)
            && c'.launcher.history ==
               d.core.launcher.history +
               if CallsFor(d, input, env) && Due(d.core.launcher, env) then [Attempt(env.candidate.value, env.now, env.starts)] else []
  {
    hide Handle, CallsFor, Due, Launcher.EnsureFallback, DaemonInv;
    StepCall(d, input, env);
    LaunchesWhenDue(d.core.launcher, false, true, env);
  }

  /** A session created while no provider is active gets a UI at once if a launch is due. */
  lemma NewSessionIsLaunchedFor(d: Daemon, input: Input, env: Env)
    requires DaemonInv(d) && Opens(d, input, env) != map[] && !d.core.registry.HasActive()
    ensures var c' := Handle(d, input, env).core;
            c'.launcher.history ==
            d.core.launcher.history +
            if !env.lockHeld && env.now - d.core.launcher.lastLaunch >= 5000 && env.candidate.Some?
               && (env.candidate.value in d.core.launcher.retry ==> env.now >= d.core.launcher.retry[env.candidate.value].nextEligible)
            then [Attempt(env.candidate.value, env.now, env.starts)] else []
  {
    hide Handle, DaemonInv, Opens;
    LaunchesExactlyWhenNeeded(d, input, env);
  }
}
