/** Live sessions with nobody to show them: the daemon has always just tried to bring up a fallback UI. */
module Attendance {
  import opened Base
  import opened Sessions
  import opened EventQueues
  import opened Environments
  import opened ProviderRegistries
  import opened AgentCore
  import opened CoreInvariants
  import opened CoreFrames
  import opened KeyringManagers
  import opened PinentryManagers
  import opened PolkitListeners
  import opened Daemons
  import opened HandlerCalls
  import opened TableAgreement

  /** Since the count was `k`: if sessions are unattended now, the fallback has been called for. */
  ghost predicate Attended(c: Core, k: nat) {
    k <= c.fallbackCalls && (c.Unattended() ==> k < c.fallbackCalls)
  }

  /** Calls after which somebody attends, or has been called for. */
  predicate Attends(op: Op) {
    !op.DoRemoveProvider? && !op.DoRegister? && !op.DoHeartbeat?
  }

  lemma UpdateAttended(c: Core, d: SessionData, env: Env, k: nat)
    requires Attended(c, k) && d.id in c.store
    ensures Attended(c.Update(d, env), k)
  {
    RouteChanges(c.(store := c.store[d.id := d]), d.UpdatedEvent(), env);
  }

  lemma CreateAttended(c: Core, id: Id, source: Source, context: Context, env: Env, k: nat)
    requires Attended(c, k)
    ensures Attended(c.Create(id, source, context, env), k)
  {
    if id !in c.store {
      var d := NewSession(id, source, context);
      RouteChanges(c.(store := c.store[id := d]), d.CreatedEvent(), env);
    }
  }

  lemma CloseAttended(c: Core, id: Id, result: Result, env: Env, k: nat)
    requires Attended(c, k)
    ensures Attended(c.Close(id, result, env), k)
  {
    if id in c.store {
      RouteChanges(c.(store := c.store - {id}).RecomputeIfIdle(env), c.store[id].Close(result).ClosedEvent(), env);
    }
  }

  lemma CompleteAttended(c: Core, id: Id, success: bool, env: Env, k: nat)
    requires Attended(c, k)
    ensures Attended(c.Complete(id, success, env), k)
  {
    if id in c.store {
      RouteChanges(c.(store := c.store - {id}), c.store[id].Close(if success then Success else Cancelled).ClosedEvent(), env);
    }
  }

  lemma OpeningAttended(c: Core, op: Op, env: Env, k: nat)
    requires Attended(c, k) && StoreInv(c.store) && env.Valid() && CoreInv(c) && (op.DoCreate? || op.DoOpen? || op.DoReprompt?)
    ensures Attended(ApplyOne(c, op, env), k)
  {
    match op
    case DoCreate(id, source, context) => CreateAttended(c, id, source, context, env, k);
    case DoOpen(id, source, context, prompt, clearError) =>
      CreateAttended(c, id, source, context, env, k);
      CreateKeeps(c, id, source, context, env);
      var c1 := c.Create(id, source, context, env);
      if id in c1.store {
        UpdateAttended(c1, c1.store[id].SetPrompt(prompt, false, clearError), env, k);
      }
    case DoReprompt(id, cur, max, prompt) =>
      var c1 := c.UpdatePinentryRetry(id, cur, max);
      if id in c1.store {
        UpdateAttended(c1, c1.store[id].SetPrompt(prompt, false, false), env, k);
      }
  }

  lemma CloseFlowAttended(c: Core, id: Id, result: Result, error: string, env: Env, k: nat)
    requires Attended(c, k) && StoreInv(c.store)
    ensures Attended(c.CloseFlow(id, result, error, env), k)
  {
    if id in c.store {
      UpdateAttended(c, c.store[id].SetError(error), env, k);
      CloseAttended(c.UpdateError(id, error, env), id, result, env, k);
      CloseAttended(c, id, result, env, k);
    }
  }

  lemma SessionOpAttended(c: Core, op: Op, env: Env, k: nat)
    requires Attended(c, k) && env.Valid() && CoreInv(c) && IsSessionOp(op)
    ensures Attended(ApplyOne(c, op, env), k)
  {
    if op.DoCreate? || op.DoOpen? || op.DoReprompt? {
      OpeningAttended(c, op, env, k);
    } else if op.DoCloseFlow? {
      CloseFlowAttended(c, op.id, op.result, op.error, env, k);
    } else if op.DoClose? {
      CloseAttended(c, op.id, op.result, env, k);
    } else if op.DoComplete? {
      CompleteAttended(c, op.id, op.success, env, k);
    } else if op.id in c.store {
      var d := c.store[op.id];
      match op
      case DoPrompt(id, prompt, echo) => UpdateAttended(c, d.SetPrompt(prompt, echo, true), env, k);
      case DoError(id, error) => UpdateAttended(c, d.SetError(error), env, k);
      case DoInfo(id, info) => UpdateAttended(c, d.SetInfo(info), env, k);
    }
  }

  lemma OpAttended(c: Core, op: Op, env: Env, k: nat)
    requires Attended(c, k) && env.Valid() && CoreInv(c) && Attends(op)
    ensures Attended(ApplyOne(c, op, env), k)
  {
    hide Core.Register, Core.Heartbeat, Core.Route, Registry.Recompute, CoreInv;
    if IsSessionOp(op) {
      SessionOpAttended(c, op, env, k);
    }
  }

  lemma {:induction false} OpsAttended(c: Core, ops: seq<Op>, env: Env, k: nat)
    requires Attended(c, k) && env.Valid() && CoreInv(c)
    requires forall i :: 0 <= i < |ops| ==> Attends(ops[i])
    ensures Attended(Apply(c, ops, env), k)
    decreases |ops|
  {
    if ops != [] {
      OpAttended(c, ops[0], env, k);
      OpKeeps(c, ops[0], env);
      OpsAttended(ApplyOne(c, ops[0], env), ops[1..], env, k);
    }
  }

  lemma OpCalls(c: Core, op: Op, env: Env)
    ensures c.fallbackCalls <= ApplyOne(c, op, env).fallbackCalls
  {
    hide Core.Route, Registry.Recompute, Registry.Register, Core.Inbox;
    if IsSessionOp(op) {
      SessionOpFrame(c, op, env);
    }
  }

  lemma {:induction false} OpsCalls(c: Core, ops: seq<Op>, env: Env)
    ensures c.fallbackCalls <= Apply(c, ops, env).fallbackCalls
    decreases |ops|
  {
    hide ApplyOne;
    if ops != [] {
      OpCalls(c, ops[0], env);
      OpsCalls(ApplyOne(c, ops[0], env), ops[1..], env);
    }
  }

  // ---- registrations and heartbeats

  predicate AllDead(providers: map<Socket, Provider>, env: Env) {
    forall s :: s in providers ==> Dead(s, providers[s], env)
  }

  /** With sessions live, a registration or a heartbeat is handled when every provider, its sender included, is already
      disconnected or stale for the election that follows. */
  predicate Overlooked(c: Core, input: Input, env: Env) {
    c.store != map[] &&
    match input
    case RegisterInput(s, msg) => AllDead(c.registry.Register(s, msg, env).providers, env)
    case HeartbeatInput(s) => s in c.registry.providers && AllDead(c.registry.Heartbeat(s, env).providers, env)
    case _ => false
  }

  lemma ElectedUnlessDead(r: Registry, env: Env)
    requires env.Valid()
    ensures r.Recompute(env).HasActive() <==> !AllDead(r.providers, env)
  {
    RecomputeElects(r, env);
    if !AllDead(r.providers, env) {
      var s :| s in r.providers && !Dead(s, r.providers[s], env);
      assert s in Survivors(r.providers, env);
    }
  }

  lemma RegisterLeaves(c: Core, s: Socket, msg: Registration, env: Env)
    requires env.Valid()
    ensures var c' := c.Register(s, msg, env);
            (c'.Unattended() <==> Overlooked(c, RegisterInput(s, msg), env)) && c'.fallbackCalls == c.fallbackCalls
  {
    hide Registry.Recompute, AllDead, Env.Valid;
    ElectedUnlessDead(c.registry.Register(s, msg, env), env);
  }

  lemma HeartbeatLeaves(c: Core, s: Socket, env: Env)
    requires env.Valid() && s in c.registry.providers
    ensures var c' := c.Heartbeat(s, env);
            (c'.Unattended() <==> Overlooked(c, HeartbeatInput(s), env)) && c'.fallbackCalls == c.fallbackCalls
  {
    hide Registry.Recompute, AllDead, Env.Valid;
    ElectedUnlessDead(c.registry.Heartbeat(s, env), env);
  }

  /** Whatever state they find, registrations and heartbeats leave live sessions unattended exactly when every provider
      is dead for the election, and then nobody is called for until the maintenance timer fires. */
  lemma ElectionLeavesUnattended(d: Daemon, input: Input, env: Env)
    requires env.Valid() && (input.RegisterInput? || (input.HeartbeatInput? && input.s in d.core.registry.providers))
    ensures var c' := Handle(d, input, env).core;
            (c'.Unattended() <==> Overlooked(d.core, input, env)) && c'.fallbackCalls == d.core.fallbackCalls
  {
    hide Core.Register, Core.Heartbeat, Overlooked, Apply;
    if input.RegisterInput? {
      RegisterLeaves(d.core, input.s, input.registration, env);
      ApplySingle(d.core, DoRegister(input.s, input.registration), env);
    } else {
      HeartbeatLeaves(d.core, input.s, env);
      ApplySingle(d.core, DoHeartbeat(input.s), env);
    }
  }

  // ---- the calls each step makes

  predicate Elects(input: Input) {
    input.RegisterInput? || input.HeartbeatInput?
  }

  lemma StepAttends(d: Daemon, input: Input, env: Env)
    requires !Elects(input) && !input.DisconnectInput?
    ensures forall i :: 0 <= i < |EffectOf(d, input, env).ops| ==> Attends(EffectOf(d, input, env).ops[i])
  {
    hide PinTables.Pended;
    if !SingleCall(input) && !Refused(d, input) {
      HandlersCallUsually(d, input, env);
    }
  }

  lemma OthersCall(d: Daemon, input: Input, env: Env)
    requires env.Valid() && DaemonInv(d) && !Elects(input) && !d.core.Unattended()
    ensures var c' := Handle(d, input, env).core; c'.Unattended() ==> c'.fallbackCalls > d.core.fallbackCalls
  {
    hide Apply, CoreInv, PolkitInv, LiveSessions;
    var ops := EffectOf(d, input, env).ops;
    if input.DisconnectInput? {
      var n := |ops| - 1;
      assert ops == ops[..n] + [DoEnsure];
      ApplyConcat(d.core, ops[..n], [DoEnsure], env);
      var c1 := Apply(d.core, ops[..n], env);
      OpsCalls(d.core, ops[..n], env);
      ApplySingle(c1, DoEnsure, env);
    } else {
      StepAttends(d, input, env);
      OpsAttended(d.core, ops, env, d.core.fallbackCalls);
    }
  }

  lemma UnknownHeartbeat(d: Daemon, s: Socket, env: Env)
    requires s !in d.core.registry.providers
    ensures var c' := Handle(d, HeartbeatInput(s), env).core; c'.store == d.core.store && c'.registry == d.core.registry
  {
    ApplySingle(d.core, DoHeartbeat(s), env);
  }

  /** A step newly leaves sessions unattended without calling for the fallback UI exactly when it is a registration or
      a heartbeat overlooked by the election it causes. */
  lemma UnattendedWithoutACallIff(d: Daemon, input: Input, env: Env)
    requires env.Valid() && DaemonInv(d) && !d.core.Unattended()
    ensures var c' := Handle(d, input, env).core;
            c'.Unattended() && c'.fallbackCalls <= d.core.fallbackCalls <==> Overlooked(d.core, input, env)
  {
    hide Handle, DaemonInv;
    if input.RegisterInput? || (input.HeartbeatInput? && input.s in d.core.registry.providers) {
      ElectionLeavesUnattended(d, input, env);
    } else if input.HeartbeatInput? {
      UnknownHeartbeat(d, input.s, env);
    } else {
      OthersCall(d, input, env);
    }
  }

  /** Steps that open no session and take no provider's leave. */
  predicate Settling(input: Input) {
    input.RegisterInput? || input.HeartbeatInput? || input.RespondInput? || input.CancelInput? || input.ResultInput?
    || input.OutcomeTimer? || input.PolkitCompleted? || input.PolkitCancelAll?
  }

  /** They newly leave sessions unattended exactly when they are overlooked. */
  lemma NewlyUnattendedIff(d: Daemon, input: Input, env: Env)
    requires env.Valid() && DaemonInv(d) && !d.core.Unattended() && Settling(input)
    ensures Handle(d, input, env).core.Unattended() <==> Overlooked(d.core, input, env)
  {
    if input.RegisterInput? || (input.HeartbeatInput? && input.s in d.core.registry.providers) {
      ElectionLeavesUnattended(d, input, env);
    } else if input.HeartbeatInput? {
      UnknownHeartbeat(d, input.s, env);
    } else {
      EndingsKeepAttended(d, input, env);
      OpsKeepAttended(d.core, EffectOf(d, input, env).ops, env);
    }
  }

  /** Calls that create no session and lose no provider. */
  predicate KeepsAttended(op: Op) {
    Attends(op) && !op.DoCreate? && !op.DoOpen? && !op.DoPrune? && !op.DoUnregister? && !op.DoEnsure?
  }

  lemma KeepsAttendedStep(c: Core, op: Op, env: Env)
    requires env.Valid() && CoreInv(c) && KeepsAttended(op) && !c.Unattended()
    ensures !ApplyOne(c, op, env).Unattended()
  {
    if IsSessionOp(op) {
      EndingStaysAttended(c, op, env);
    }
  }

  lemma EndingStaysAttended(c: Core, op: Op, env: Env)
    requires env.Valid() && CoreInv(c) && IsSessionOp(op) && !op.DoCreate? && !op.DoOpen? && !c.Unattended()
    ensures !ApplyOne(c, op, env).Unattended()
  {
    NoCallWithoutCreation(c, op, env);
    SessionOpAttended(c, op, env, c.fallbackCalls);
  }

  lemma NoCallWithoutCreation(c: Core, op: Op, env: Env)
    requires env.Valid() && CoreInv(c) && IsSessionOp(op) && !op.DoCreate? && !op.DoOpen?
    ensures ApplyOne(c, op, env).fallbackCalls == c.fallbackCalls
  {
    hide Core.Route, Elected, Scan, Core.SendAll;
    if op.DoReprompt? {
      var c1 := c.UpdatePinentryRetry(op.id, op.cur, op.max);
      if op.id in c1.store {
        UpdateCalls(c1, c1.store[op.id].SetPrompt(op.prompt, false, false), env);
      }
    } else if op.id in c.store {
      var d := c.store[op.id];
      match op
      case DoPrompt(id, prompt, echo) => UpdateCalls(c, d.SetPrompt(prompt, echo, true), env);
      case DoError(id, error) => UpdateCalls(c, d.SetError(error), env);
      case DoInfo(id, info) => UpdateCalls(c, d.SetInfo(info), env);
      case DoClose(id, result) => CloseCalls(c, id, result, env);
      case DoComplete(id, success) => CompleteCalls(c, id, success, env);
      case DoCloseFlow(id, result, error) =>
        UpdateCalls(c, d.SetError(error), env);
        CloseCalls(c.UpdateError(id, error, env), id, result, env);
        CloseCalls(c, id, result, env);
    }
  }

  lemma UpdateCalls(c: Core, d: SessionData, env: Env)
    ensures c.Update(d, env).fallbackCalls == c.fallbackCalls
  {
    RouteChanges(c.(store := c.store[d.id := d]), d.UpdatedEvent(), env);
  }

  lemma CloseCalls(c: Core, id: Id, result: Result, env: Env)
    ensures c.Close(id, result, env).fallbackCalls == c.fallbackCalls
  {
    if id in c.store {
      RouteChanges(c.(store := c.store - {id}).RecomputeIfIdle(env), c.store[id].Close(result).ClosedEvent(), env);
    }
  }

  lemma CompleteCalls(c: Core, id: Id, success: bool, env: Env)
    ensures c.Complete(id, success, env).fallbackCalls == c.fallbackCalls
  {
    if id in c.store {
      RouteChanges(c.(store := c.store - {id}), c.store[id].Close(if success then Success else Cancelled).ClosedEvent(), env);
    }
  }

  lemma {:induction false} OpsKeepAttended(c: Core, ops: seq<Op>, env: Env)
    requires env.Valid() && CoreInv(c) && !c.Unattended()
    requires forall i :: 0 <= i < |ops| ==> KeepsAttended(ops[i])
    ensures !Apply(c, ops, env).Unattended()
    decreases |ops|
  {
    if ops != [] {
      KeepsAttendedStep(c, ops[0], env);
      OpKeeps(c, ops[0], env);
      OpsKeepAttended(ApplyOne(c, ops[0], env), ops[1..], env);
    }
  }

  lemma EndingsKeepAttended(d: Daemon, input: Input, env: Env)
    requires Settling(input) && !Elects(input)
    ensures forall i :: 0 <= i < |EffectOf(d, input, env).ops| ==> KeepsAttended(EffectOf(d, input, env).ops[i])
  {
    if !SingleCall(input) && !Refused(d, input) {
      HandlersCallUsually(d, input, env);
    }
  }
}
