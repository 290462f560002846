/** Runs in which three properties one might expect of the daemon fail. */
module Failures {
  import opened Base
  import opened Sessions
  import opened Environments
  import opened EnvironmentExamples
  import opened ProviderRegistries
  import opened AgentCore
  import opened KeyringManagers
  import opened PinentryManagers
  import opened Daemons
  import opened TableAgreement
  import opened StepOutcome
  import opened SessionTheorems
  import opened ManagerTheorems
  import opened Attendance

  const NOBODY := Requestor("", "", "", "", 0)

  /** Circumstances in which exactly `s` is connected. */
  lemma Around(s: Socket, stamp: int, now: int) returns (env: Env)
    ensures env.Valid() && env.connected == {s} && env.stamp == stamp && env.now == now
  {
    env := EnvironmentsExist(Env(stamp, now, {s}, "id", NOBODY, x => [], x => [], false, None, false, 0));
  }

  lemma OneStep(step: Step)
    ensures Run(INITIAL, [step]) == Handle(INITIAL, step.input, step.env)
  {
    hide Handle;
    assert [step][..0] == [];
    assert Run(INITIAL, []) == INITIAL;
  }

  lemma TwoSteps(a: Step, b: Step)
    ensures Run(INITIAL, [a, b]) == Handle(Handle(INITIAL, a.input, a.env), b.input, b.env)
  {
    hide Handle;
    OneStep(a);
    assert [a, b][..1] == [a];
  }

  /** The first keyring request of a run opens a session and becomes pending. */
  lemma FirstKeyringRequest(s: Socket, pid: Pid, msg: KeyringMessage, env: Env)
    requires msg.cookie != "" && env.Valid()
    ensures var d := Handle(INITIAL, KeyringInput(s, pid, msg), env);
            && DaemonInv(d) && msg.cookie in d.keyring && d.pinentry == NO_FLOWS
            && LiveSessions(d.core.store) == map[msg.cookie := Keyring]
  {
    hide Apply, DaemonInv, LiveSessions;
    RunKeeps([]);
    assert Run(INITIAL, []) == INITIAL;
    HandleKeeps(INITIAL, KeyringInput(s, pid, msg), env);
    StepOpensAndCloses(INITIAL, KeyringInput(s, pid, msg), env);
    NothingLive();
    assert (map[] - {}) + map[msg.cookie := Keyring] == map[msg.cookie := Keyring];
  }

  lemma NothingLive()
    ensures LiveSessions(INITIAL.core.store) == map[]
  {
  }

  /** Two keyring requests under one cookie strand its session: it is live, and nothing pending can answer it. */
  lemma ReusedCookieStrands(s: Socket, pid: Pid, msg: KeyringMessage, env: Env)
    requires msg.cookie != "" && env.Valid()
    ensures var step := Step(KeyringInput(s, pid, msg), env); !KeyringExact(Run(INITIAL, [step, step]))
  {
    var step := Step(KeyringInput(s, pid, msg), env);
    var d := Handle(INITIAL, step.input, env);
    FirstKeyringRequest(s, pid, msg, env);
    TwoSteps(step, step);
    assert KeyringIds(LiveSessions(d.core.store)) == {msg.cookie};
    assert KeyringInv(d.keyring, LiveSessions(d.core.store));
    KeyringRequestExact(d, s, pid, msg, env);
  }

  /** A pinentry request under the cookie of a keyring session is owned without a pinentry session. */
  lemma ForeignCookieOwned(s: Socket, pid: Pid, msg: KeyringMessage, pin: PinentryMessage, env: Env)
    requires msg.cookie != "" && pin.cookie == msg.cookie && env.Valid()
    ensures !PinentryExact(Run(INITIAL, [Step(KeyringInput(s, pid, msg), env), Step(PinentryInput(s, pid, pin), env)]))
  {
    var a, b := Step(KeyringInput(s, pid, msg), env), Step(PinentryInput(s, pid, pin), env);
    var d := Handle(INITIAL, a.input, env);
    FirstKeyringRequest(s, pid, msg, env);
    TwoSteps(a, b);
    assert PinentryIds(LiveSessions(d.core.store)) == {};
    assert LiveSessions(d.core.store)[msg.cookie] == Keyring;
    RequestOwners(d, s, pid, pin, env);
  }

  /** A heartbeat handled more than 15 s after it was stamped loses the last provider, and nobody is called for. */
  lemma LateHeartbeatOverlooked(d: Daemon, s: Socket) returns (env: Env)
    requires s in d.core.registry.providers && d.core.store != map[]
    ensures env.Valid() && s in env.connected
    ensures var c' := Handle(d, HeartbeatInput(s), env).core; c'.Unattended() && c'.fallbackCalls == d.core.fallbackCalls
  {
    env := Around(s, 0, HEARTBEAT_TIMEOUT_MS + 1);
    ElectionLeavesUnattended(d, HeartbeatInput(s), env);
  }

  /** Such a state is reached by one request and one registration. */
  lemma AttendedSession(s: Socket, registration: Registration, pid: Pid, msg: KeyringMessage) returns (steps: seq<Step>)
    requires msg.cookie != ""
    ensures ValidSteps(steps)
    ensures var c := Run(INITIAL, steps).core; s in c.registry.providers && c.store != map[] && !c.Unattended()
  {
    hide Apply, Handle, DaemonInv;
    var env := Around(s, 0, 0);
    var a, b := Step(KeyringInput(s, pid, msg), env), Step(RegisterInput(s, registration), env);
    var c := Handle(INITIAL, a.input, env).core;
    steps := [a, b];
    TwoSteps(a, b);
    FirstKeyringRequest(s, pid, msg, env);
    assert msg.cookie in LiveSessions(c.store);
    FirstRegistered(c, s, registration, env);
    RegistrationIs(Handle(INITIAL, a.input, env), s, registration, env);
  }

  lemma RegistrationIs(d: Daemon, s: Socket, msg: Registration, env: Env)
    ensures Handle(d, RegisterInput(s, msg), env).core == Apply(d.core, [DoRegister(s, msg)], env)
  {
  }

  lemma FirstRegistered(c: Core, s: Socket, msg: Registration, env: Env)
    requires env.Valid() && s in env.connected && env.stamp == env.now && c.store != map[]
    ensures var c' := Apply(c, [DoRegister(s, msg)], env); s in c'.registry.providers && c'.store == c.store && !c'.Unattended()
  {
    ApplySingle(c, DoRegister(s, msg), env);
    var r := c.registry.Register(s, msg, env);
    RecomputeElects(r, env);
    assert s in Survivors(r.providers, env);
    hide Registry.Recompute;
  }
}
