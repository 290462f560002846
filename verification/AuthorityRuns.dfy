/** Agreement about authority, carried from single agent calls to steps and whole runs. */
module AuthorityRuns {
  import opened Base
  import opened Environments
  import opened ProviderRegistries
  import opened AgentCore
  import opened CoreInvariants
  import opened CoreFrames
  import opened Deliveries
  import opened FallbackClients
  import opened PinentryManagers
  import opened Daemons
  import opened HandlerCalls
  import opened TableAgreement
  import opened Authority

  // ---- steps

  /** Calls that can be followed in any state. */
  predicate Harmless(op: Op) {
    !op.DoRegister? && !op.DoSubscribe? && (op.Say? || op.Answer? ==> Neutral(op.m))
  }

  ghost predicate AllHarmless(ops: seq<Op>) {
    forall i :: 0 <= i < |ops| ==> Harmless(ops[i])
  }

  lemma {:induction false} HarmlessAgreement(c: Core, ops: seq<Op>, s: Socket, env: Env)
    requires env.Valid() && s in env.connected && AgreesIfInformed(c, s) && CoreInv(c) && AllHarmless(ops)
    ensures AgreesIfInformed(Apply(c, ops, env), s)
    decreases |ops|
  {
    if ops != [] {
      OpAgreement(c, ops[0], s, env);
      OpKeeps(c, ops[0], env);
      HarmlessAgreement(ApplyOne(c, ops[0], env), ops[1..], s, env);
    }
  }

  lemma EffectHarmless(d: Daemon, input: Input, env: Env)
    requires !input.RegisterInput? && !input.SubscribeInput? && !Refused(d, input)
    ensures AllHarmless(EffectOf(d, input, env).ops)
  {
    hide Disconnect, PinentryCleanup, Respond, PinentryHandleRequest;
    if input.DisconnectInput? {
      DisconnectCalls(d, input.s, env);
    } else if !SingleCall(input) {
      HandlersCallUsually(d, input, env);
    }
  }

  /** The daemon never issues an id twice, the client registers in time, and it has registered before it subscribes. */
  ghost predicate Orderly(d: Daemon, input: Input, s: Socket, env: Env) {
    && (input.RegisterInput? ==> FreshId(d.core, input.s, env))
    && (input == SubscribeInput(s) ==> Informed(d.core, s))
    && (input.RegisterInput? && input.s == s ==> env.now - env.stamp <= HEARTBEAT_TIMEOUT_MS)
  }

  lemma RegisterStep(c: Core, msg: Registration, t: Socket, s: Socket, env: Env)
    requires env.Valid() && s in env.connected && CoreInv(c) && AgreesIfInformed(c, s) && FreshId(c, t, env)
    requires t == s ==> env.now - env.stamp <= HEARTBEAT_TIMEOUT_MS
    ensures AgreesIfInformed(Apply(c, [DoRegister(t, msg)], env), s)
  {
    ApplySingle(c, DoRegister(t, msg), env);
    if t == s {
      RegisteringAgrees(c, msg, s, env);
    } else {
      OtherRegisters(c, t, msg, s, env);
    }
  }

  lemma SubscribeStep(c: Core, t: Socket, s: Socket, env: Env)
    requires s in env.connected && AgreesIfInformed(c, s) && (t == s ==> Informed(c, s))
    ensures AgreesIfInformed(Apply(c, [DoSubscribe(t)], env), s)
  {
    ApplySingle(c, DoSubscribe(t), env);
    SubscribeAgreement(c, t, s, env);
  }

  lemma RefusedStep(c: Core, t: Socket, s: Socket, env: Env)
    requires AgreesIfInformed(c, s) && !c.registry.Authorizes(t)
    ensures AgreesIfInformed(Apply(c, [Say(t, Failure(NOT_ACTIVE))], env), s)
  {
    ApplySingle(c, Say(t, Failure(NOT_ACTIVE)), env);
    SayAgreement(c, Say(t, Failure(NOT_ACTIVE)), s, env);
  }

  /** A step keeps client and daemon in agreement for as long as the daemon keeps the client informed. */
  lemma StepAgreement(d: Daemon, input: Input, s: Socket, env: Env)
    requires env.Valid() && s in env.connected && CoreInv(d.core) && AgreesIfInformed(d.core, s) && Orderly(d, input, s, env)
    ensures AgreesIfInformed(Apply(d.core, EffectOf(d, input, env).ops, env), s)
  {
    hide Apply, Disconnect, ApplyOne, CoreInv;
    if input.RegisterInput? {
      RegisterStep(d.core, input.registration, input.s, s, env);
    } else if input.SubscribeInput? {
      SubscribeStep(d.core, input.s, s, env);
    } else if Refused(d, input) {
      RefusedStep(d.core, input.s, s, env);
    } else {
      EffectHarmless(d, input, env);
      HarmlessAgreement(d.core, EffectOf(d, input, env).ops, s, env);
    }
  }

  // ---- the identities of providers

  ghost predicate DistinctIds(r: Registry) {
    forall t, u :: t in r.providers && u in r.providers && t != u ==> r.providers[t].id != r.providers[u].id
  }

  /** Known and pairwise different. */
  ghost predicate IdsAreGood(c: Core) {
    IdsInv(c) && DistinctIds(c.registry)
  }

  /** Dropping and re-stamping providers keeps their ids good. */
  lemma FewerIds(c: Core, c': Core, env: Env)
    requires IdsAreGood(c) && c'.issued == c.issued
    requires forall t :: t in c'.registry.providers ==>
               t in c.registry.providers && c'.registry.providers[t].id == c.registry.providers[t].id
    ensures IdsAreGood(c')
  {
  }

  lemma SessionOpIds(c: Core, op: Op, env: Env)
    requires env.Valid() && IdsAreGood(c) && IsSessionOp(op)
    ensures IdsAreGood(ApplyOne(c, op, env)) && ApplyOne(c, op, env).issued == c.issued
  {
    SessionOpFrame(c, op, env);
    RecomputeElects(c.registry, env);
    FewerIds(c, ApplyOne(c, op, env), env);
  }

  ghost predicate FewerProviders(r: Registry, r': Registry) {
    forall t :: t in r'.providers ==> t in r.providers && r'.providers[t].id == r.providers[t].id
  }

  lemma HeartbeatRegistry(c: Core, s: Socket, env: Env)
    requires env.Valid()
    ensures FewerProviders(c.registry, c.Heartbeat(s, env).registry) && c.Heartbeat(s, env).issued == c.issued
  {
    if s in c.registry.providers {
      var r := c.registry.Heartbeat(s, env);
      RecomputeElects(r, env);
      assert c.Heartbeat(s, env).registry == r.Recompute(env);
    }
  }

  lemma RemoveRegistry(c: Core, s: Socket, env: Env)
    requires env.Valid()
    ensures FewerProviders(c.registry, c.RemoveProvider(s, env).registry) && c.RemoveProvider(s, env).issued == c.issued
    ensures c.Unregister(s, env).registry == c.RemoveProvider(s, env).registry && c.Unregister(s, env).issued == c.issued
  {
    RecomputeElects(c.registry.Remove(s), env);
  }

  /** The registry after a call other than a registration. */
  lemma OtherOpRegistry(c: Core, op: Op, env: Env)
    requires env.Valid() && !op.DoRegister? && !IsSessionOp(op)
    ensures FewerProviders(c.registry, ApplyOne(c, op, env).registry) && ApplyOne(c, op, env).issued == c.issued
  {
    if op.DoHeartbeat? {
      HeartbeatRegistry(c, op.s, env);
    } else if op.DoUnregister? || op.DoRemoveProvider? {
      RemoveRegistry(c, op.s, env);
    } else if op.DoPrune? {
      RecomputeElects(c.registry, env);
    }
  }

  lemma OpIds(c: Core, op: Op, env: Env)
    requires env.Valid() && IdsAreGood(c) && !op.DoRegister?
    ensures IdsAreGood(ApplyOne(c, op, env)) && ApplyOne(c, op, env).issued == c.issued
  {
    if IsSessionOp(op) {
      SessionOpIds(c, op, env);
    } else {
      OtherOpRegistry(c, op, env);
      FewerIds(c, ApplyOne(c, op, env), env);
    }
  }

  lemma {:induction false} OpsIds(c: Core, ops: seq<Op>, env: Env)
    requires env.Valid() && IdsAreGood(c) && forall i :: 0 <= i < |ops| ==> !ops[i].DoRegister?
    ensures IdsAreGood(Apply(c, ops, env)) && Apply(c, ops, env).issued == c.issued
    decreases |ops|
  {
    if ops != [] {
      OpIds(c, ops[0], env);
      OpsIds(ApplyOne(c, ops[0], env), ops[1..], env);
    }
  }

  lemma RegisterIds(c: Core, s: Socket, msg: Registration, env: Env)
    requires env.Valid() && IdsAreGood(c) && FreshId(c, s, env)
    ensures IdsAreGood(c.Register(s, msg, env)) && c.Register(s, msg, env).issued <= c.issued + {env.uuid}
  {
    var a := Admitted(c, s, msg, env);
    AdmittedIsElected(c, s, msg, env);
    assert IdsAreGood(a);
    assert c.Register(s, msg, env).registry == a.registry && c.Register(s, msg, env).issued == a.issued;
  }

  /** Only registrations issue ids. */
  lemma StepIds(d: Daemon, input: Input, env: Env)
    requires env.Valid() && IdsAreGood(d.core) && (input.RegisterInput? ==> FreshId(d.core, input.s, env))
    ensures var c' := Apply(d.core, EffectOf(d, input, env).ops, env);
            IdsAreGood(c') && c'.issued <= d.core.issued + if input.RegisterInput? then {env.uuid} else {}
  {
    var ops := EffectOf(d, input, env).ops;
    if input.RegisterInput? {
      ApplySingle(d.core, DoRegister(input.s, input.registration), env);
      RegisterIds(d.core, input.s, input.registration, env);
    } else {
      NoRegistration(d, input, env);
      OpsIds(d.core, ops, env);
    }
  }

  lemma NoRegistration(d: Daemon, input: Input, env: Env)
    requires !input.RegisterInput?
    ensures forall i :: 0 <= i < |EffectOf(d, input, env).ops| ==> !EffectOf(d, input, env).ops[i].DoRegister?
  {
    if !Refused(d, input) && !input.SubscribeInput? {
      EffectHarmless(d, input, env);
    }
  }

  /** Every registration reads a universally unique id. */
  ghost predicate UniqueIds(steps: seq<Step>) {
    && (forall i :: 0 <= i < |steps| && steps[i].input.RegisterInput? ==> steps[i].env.uuid != "")
    && (forall i, j :: 0 <= i < j < |steps| && steps[i].input.RegisterInput? && steps[j].input.RegisterInput? ==>
          steps[i].env.uuid != steps[j].env.uuid)
  }

  ghost function GivenIds(steps: seq<Step>): set<Id> {
    set i | 0 <= i < |steps| && steps[i].input.RegisterInput? :: steps[i].env.uuid
  }

  lemma {:induction false} RunIds(steps: seq<Step>)
    requires ValidSteps(steps) && UniqueIds(steps)
    ensures IdsAreGood(Run(INITIAL, steps).core) && Run(INITIAL, steps).core.issued <= GivenIds(steps)
  {
    if steps != [] {
      var before, last := steps[..|steps| - 1], steps[|steps| - 1];
      RunIds(before);
      assert GivenIds(before) <= GivenIds(steps);
      StepIds(Run(INITIAL, before), last.input, last.env);
    }
  }

  // ---- whole runs

  /** `s` stays connected from step `n` on, and registers only with a clock that does not stall. */
  ghost predicate StaysConnected(steps: seq<Step>, n: nat, s: Socket) {
    forall i :: n <= i < |steps| ==>
      && s in steps[i].env.connected && steps[i].input != DisconnectInput(s)
      && (steps[i].input.RegisterInput? && steps[i].input.s == s ==> steps[i].env.now - steps[i].env.stamp <= HEARTBEAT_TIMEOUT_MS)
  }

  /** Once subscribed, always subscribed, until the socket goes away. */
  lemma OpSubscribed(c: Core, op: Op, s: Socket, env: Env)
    requires s in c.subscribers && op != DoUnsubscribe(s)
    ensures s in ApplyOne(c, op, env).subscribers
  {
    if IsSessionOp(op) {
      SessionOpFrame(c, op, env);
    }
  }

  lemma {:induction false} OpsSubscribed(c: Core, ops: seq<Op>, s: Socket, env: Env)
    requires s in c.subscribers && DoUnsubscribe(s) !in ops
    ensures s in Apply(c, ops, env).subscribers
    decreases |ops|
  {
    if ops != [] {
      OpSubscribed(c, ops[0], s, env);
      OpsSubscribed(ApplyOne(c, ops[0], env), ops[1..], s, env);
    }
  }

  lemma StaysSubscribed(d: Daemon, input: Input, s: Socket, env: Env)
    requires s in d.core.subscribers && input != DisconnectInput(s)
    ensures s in Apply(d.core, EffectOf(d, input, env).ops, env).subscribers
  {
    NeverUnsubscribes(d, input, s, env);
    OpsSubscribed(d.core, EffectOf(d, input, env).ops, s, env);
  }

  lemma NeverUnsubscribes(d: Daemon, input: Input, s: Socket, env: Env)
    requires input != DisconnectInput(s)
    ensures DoUnsubscribe(s) !in EffectOf(d, input, env).ops
  {
    hide PinTables.CleanupAwaiting;
    if input.DisconnectInput? {
      DisconnectCalls(d, input.s, env);
    } else if !SingleCall(input) && !Refused(d, input) {
      HandlersCallUsually(d, input, env);
    }
  }

  lemma RunStep(steps: seq<Step>, i: nat)
    requires i < |steps|
    ensures var d := Run(INITIAL, steps[..i]);
            Run(INITIAL, steps[..i + 1]).core == Apply(d.core, EffectOf(d, steps[i].input, steps[i].env).ops, steps[i].env)
  {
    assert steps[..i + 1][..i] == steps[..i];
  }

  lemma RunsAreGood(steps: seq<Step>, i: nat)
    requires ValidSteps(steps) && UniqueIds(steps) && i < |steps|
    ensures CoreInv(Run(INITIAL, steps[..i]).core) && IdsAreGood(Run(INITIAL, steps[..i]).core)
    ensures steps[i].input.RegisterInput? ==> FreshId(Run(INITIAL, steps[..i]).core, steps[i].input.s, steps[i].env)
  {
    RunKeeps(steps[..i]);
    RunIds(steps[..i]);
  }

  ghost predicate InformedAt(steps: seq<Step>, i: nat, s: Socket) {
    i <= |steps| && Informed(Run(INITIAL, steps[..i]).core, s)
  }

  ghost predicate RegisteredAt(steps: seq<Step>, i: nat, s: Socket) {
    i <= |steps| && s in Run(INITIAL, steps[..i]).core.registry.providers
  }

  ghost predicate SubscribedAt(steps: seq<Step>, i: nat, s: Socket) {
    i <= |steps| && s in Run(INITIAL, steps[..i]).core.subscribers
  }

  ghost predicate AgreeingAt(steps: seq<Step>, i: nat, s: Socket) {
    i <= |steps| && AgreesIfInformed(Run(INITIAL, steps[..i]).core, s)
  }

  predicate RegistersAt(steps: seq<Step>, i: nat, s: Socket) {
    i < |steps| && steps[i].input.RegisterInput? && steps[i].input.s == s
  }

  lemma AgreementBegins(steps: seq<Step>, n: nat, s: Socket)
    requires ValidSteps(steps) && UniqueIds(steps) && RegistersAt(steps, n, s) && StaysConnected(steps, n, s)
    ensures AgreeingAt(steps, n + 1, s)
  {
    hide Apply;
    var d, last := Run(INITIAL, steps[..n]), steps[n];
    RunsAreGood(steps, n);
    RunStep(steps, n);
    FirstRegistration(d.core, last.input.registration, s, last.env);
  }

  lemma FirstRegistration(c: Core, msg: Registration, s: Socket, env: Env)
    requires env.Valid() && s in env.connected && CoreInv(c) && IdsAreGood(c) && FreshId(c, s, env)
    requires env.now - env.stamp <= HEARTBEAT_TIMEOUT_MS
    ensures AgreesIfInformed(Apply(c, [DoRegister(s, msg)], env), s)
  {
    hide Core.Register;
    hide Agreement;
    ApplySingle(c, DoRegister(s, msg), env);
    RegisteringAgrees(c, msg, s, env);
  }

  lemma AgreementGoesOn(steps: seq<Step>, n: nat, k: nat, s: Socket)
    requires ValidSteps(steps) && UniqueIds(steps) && StaysConnected(steps, n, s) && n < k < |steps|
    requires AgreeingAt(steps, k, s) && InformedAt(steps, k, s)
    ensures AgreeingAt(steps, k + 1, s)
  {
    RunsAreGood(steps, k);
    RunStep(steps, k);
    StepAgreement(Run(INITIAL, steps[..k]), steps[k].input, s, steps[k].env);
  }

  /** From a timely registration on, a client that is kept informed agrees with the daemon. */
  lemma {:induction false} AgreementFrom(steps: seq<Step>, n: nat, s: Socket, k: nat)
    requires ValidSteps(steps) && UniqueIds(steps) && RegistersAt(steps, n, s) && StaysConnected(steps, n, s)
    requires n < k <= |steps| && forall i :: n < i <= k ==> InformedAt(steps, i, s)
    ensures AgreeingAt(steps, k, s)
    decreases k
  {
    if k == n + 1 {
      AgreementBegins(steps, n, s);
    } else {
      AgreementFrom(steps, n, s, k - 1);
      AgreementGoesOn(steps, n, k - 1, s);
    }
  }

  lemma SubscriptionBegins(steps: seq<Step>, m: nat, s: Socket)
    requires m < |steps| && steps[m].input == SubscribeInput(s)
    ensures SubscribedAt(steps, m + 1, s)
  {
    RunStep(steps, m);
    ApplySingle(Run(INITIAL, steps[..m]).core, DoSubscribe(s), steps[m].env);
  }

  lemma SubscriptionGoesOn(steps: seq<Step>, k: nat, s: Socket)
    requires k < |steps| && steps[k].input != DisconnectInput(s) && SubscribedAt(steps, k, s)
    ensures SubscribedAt(steps, k + 1, s)
  {
    RunStep(steps, k);
    StaysSubscribed(Run(INITIAL, steps[..k]), steps[k].input, s, steps[k].env);
  }

  lemma {:induction false} SubscriptionLasts(steps: seq<Step>, n: nat, m: nat, s: Socket, k: nat)
    requires n < m < k <= |steps| && StaysConnected(steps, n, s) && steps[m].input == SubscribeInput(s)
    ensures SubscribedAt(steps, k, s)
    decreases k
  {
    hide Run;
    if k == m + 1 {
      SubscriptionBegins(steps, m, s);
    } else {
      SubscriptionLasts(steps, n, m, s, k - 1);
      SubscriptionGoesOn(steps, k - 1, s);
    }
  }

  /** A fallback client that registered at step `n`, and subscribed at step `m` before it could be pruned, believes it is
      active exactly if the daemon accepts its answers: after every later step, whoever registers, dies or
      leaves, until its own socket goes away. */
  lemma ClientAgreesWithDaemon(steps: seq<Step>, n: nat, m: nat, s: Socket)
    requires ValidSteps(steps) && UniqueIds(steps) && RegistersAt(steps, n, s) && StaysConnected(steps, n, s)
    requires n < m < |steps| && steps[m].input == SubscribeInput(s)
    requires forall j :: n < j <= m ==> RegisteredAt(steps, j, s)
    ensures var c := Run(INITIAL, steps).core; ClientOf(c.Inbox(s)).active == c.registry.Authorizes(s)
  {
    hide Run;
    forall i | n < i <= |steps| ensures InformedAt(steps, i, s) {
      StaysInformed(steps, n, m, s, i);
    }
    AgreementFrom(steps, n, s, |steps|);
    assert InformedAt(steps, |steps|, s) && steps[..|steps|] == steps;
    var c := Run(INITIAL, steps).core;
    assert AgreesIfInformed(c, s) && Informed(c, s);
    assert Agreement(c, s);
  }

  /** A client that subscribes before it could be pruned stays informed. */
  lemma StaysInformed(steps: seq<Step>, n: nat, m: nat, s: Socket, i: nat)
    requires n < m < |steps| && StaysConnected(steps, n, s) && steps[m].input == SubscribeInput(s)
    requires n < i <= |steps| && (i <= m ==> RegisteredAt(steps, i, s))
    ensures InformedAt(steps, i, s)
  {
    if i > m {
      SubscriptionLasts(steps, n, m, s, i);
    }
  }
}
