/** The mirror of an active provider, over steps and whole runs. */
module MirrorRuns {
  import opened Base
  import opened EventQueues
  import opened Environments
  import opened ProviderRegistries
  import opened AgentCore
  import opened CoreInvariants
  import opened CoreFrames
  import opened Deliveries
  import opened KeyringManagers
  import opened PinentryManagers
  import opened PolkitListeners
  import opened Daemons
  import opened HandlerCalls
  import opened TableAgreement
  import opened AuthorityRuns
  import opened Mirrors

  // ---- messages that are no session events

  ghost predicate AddsTalk(c: Core, c': Core, s: Socket) {
    && c.Inbox(s) <= c'.Inbox(s)
    && forall i :: |c.Inbox(s)| <= i < |c'.Inbox(s)| ==> !c'.Inbox(s)[i].SessionMsg?
  }

  lemma {:induction false} TalkReflectsNothing(ms: seq<Msg>, ms': seq<Msg>, n: nat)
    requires n <= |ms| && ms <= ms' && forall i :: |ms| <= i < |ms'| ==> !ms'[i].SessionMsg?
    ensures MirrorOf(ms'[n..]) == MirrorOf(ms[n..])
    decreases |ms'|
  {
    if |ms| < |ms'| {
      var k := |ms'| - 1;
      TalkReflectsNothing(ms, ms'[..k], n);
      assert ms'[n..] == ms'[..k][n..] + [ms'[k]];
      MirrorStep(ms'[..k][n..], ms'[k]);
    } else {
      assert ms' == ms;
    }
  }

  /** Calls that say something but change neither store nor queue. */
  lemma TalkMirrors(c: Core, c': Core, s: Socket, n: nat)
    requires Mirroring(c, s, n) && AddsTalk(c, c', s) && c'.store == c.store && s in c'.registry.providers
    requires s !in c'.queue.waiters
    ensures Mirroring(c', s, n)
  {
    TalkReflectsNothing(c.Inbox(s), c'.Inbox(s), n);
  }

  lemma RecomputeTalks(c: Core, s: Socket, env: Env)
    ensures AddsTalk(c, c.Recompute(env), s)
    ensures c.Recompute(env).store == c.store && c.Recompute(env).queue == c.queue
  {
    RecomputeDelivers(c, s, env);
  }

  lemma RegisterTalks(c: Core, t: Socket, msg: Registration, s: Socket, env: Env)
    ensures AddsTalk(c, c.Register(t, msg, env), s)
    ensures c.Register(t, msg, env).store == c.store && c.Register(t, msg, env).queue == c.queue
  {
    hide Registry.Recompute;
    var r := c.registry.Register(t, msg, env);
    var q := r.Recompute(env);
    var told := UiRegistered(r.providers[t].id, Some(q.active == Some(t)), r.providers[t].priority);
    var c1 := c.(registry := q, issued := c.issued + {r.providers[t].id});
    assert AddsTalk(c, c1.Send(t, told, env), s);
    AnnounceDelivers(c1.Send(t, told, env), s, env);
  }

  lemma HeartbeatTalks(c: Core, t: Socket, s: Socket, env: Env)
    ensures AddsTalk(c, c.Heartbeat(t, env), s)
    ensures c.Heartbeat(t, env).store == c.store && c.Heartbeat(t, env).queue == c.queue
  {
    if t in c.registry.providers {
      RecomputeTalks(c.(registry := c.registry.Heartbeat(t, env)), s, env);
    }
  }

  lemma RemoveTalks(c: Core, t: Socket, s: Socket, env: Env)
    ensures AddsTalk(c, c.RemoveProvider(t, env), s)
    ensures c.RemoveProvider(t, env).store == c.store && c.RemoveProvider(t, env).queue == c.queue
  {
    RecomputeTalks(c.(registry := c.registry.Remove(t)), s, env);
  }

  lemma UnregisterTalks(c: Core, t: Socket, s: Socket, env: Env)
    ensures AddsTalk(c, c.Unregister(t, env), s)
    ensures c.Unregister(t, env).store == c.store && c.Unregister(t, env).queue == c.queue
  {
    hide Core.RemoveProvider;
    RemoveTalks(c, t, s, env);
  }

  /** Calls of which a handler makes at most one. */
  predicate RegistryOp(op: Op) {
    op.DoRegister? || op.DoHeartbeat? || op.DoUnregister? || op.DoRemoveProvider? || op.DoPrune?
  }

  lemma RegistryOpMirrors(c: Core, op: Op, s: Socket, n: nat, env: Env)
    requires Mirroring(c, s, n) && RegistryOp(op) && s in ApplyOne(c, op, env).registry.providers
    ensures Mirroring(ApplyOne(c, op, env), s, n)
  {
    if op.DoRegister? {
      RegisterTalks(c, op.s, op.msg, s, env);
    } else if op.DoHeartbeat? {
      HeartbeatTalks(c, op.s, s, env);
    } else if op.DoUnregister? {
      UnregisterTalks(c, op.s, s, env);
    } else if op.DoRemoveProvider? {
      RemoveTalks(c, op.s, s, env);
    } else {
      RecomputeTalks(c, s, env);
    }
    TalkMirrors(c, ApplyOne(c, op, env), s, n);
  }

  // ---- the rest of a handler's calls

  predicate QuietOp(op: Op) {
    ((op.Say? || op.Answer?) && !op.m.SessionMsg?) || op.DoEnsure? || op.DoUnsubscribe? || op.DoRemoveWaiter?
  }

  lemma QuietOpMirrors(c: Core, op: Op, s: Socket, n: nat, env: Env)
    requires Mirroring(c, s, n) && QuietOp(op)
    ensures Mirroring(ApplyOne(c, op, env), s, n) && ApplyOne(c, op, env).registry == c.registry
  {
    hide MirrorOf, Mirrored, Core.Route, Registry.Recompute;
    if op.DoRemoveWaiter? {
      WithoutElements(c.queue.waiters, op.s);
    }
    TalkMirrors(c, ApplyOne(c, op, env), s, n);
  }

  predicate OrdinaryOp(op: Op) {
    ProperSessionOp(op) || QuietOp(op)
  }

  ghost predicate Ordinary(ops: seq<Op>) {
    forall i :: 0 <= i < |ops| ==> OrdinaryOp(ops[i])
  }

  /** Electing again would change nothing. */
  predicate Settled(c: Core, env: Env) {
    c.registry.Recompute(env) == c.registry
  }

  /** An ordinary call leaves the registry alone, or leaves it settled; and a settled one it leaves alone. */
  lemma OrdinarySettles(c: Core, op: Op, env: Env)
    requires env.Valid() && OrdinaryOp(op)
    ensures var c' := ApplyOne(c, op, env);
            (c'.registry == c.registry || Settled(c', env)) && (Settled(c, env) ==> c'.registry == c.registry)
  {
    if IsSessionOp(op) {
      SessionOpFrame(c, op, env);
      RecomputeIdempotent(c.registry, env);
    }
  }

  lemma {:induction false} SettledStays(c: Core, ops: seq<Op>, env: Env)
    requires env.Valid() && Ordinary(ops) && Settled(c, env)
    ensures Apply(c, ops, env).registry == c.registry
    decreases |ops|
  {
    if ops != [] {
      OrdinarySettles(c, ops[0], env);
      SettledStays(ApplyOne(c, ops[0], env), ops[1..], env);
    }
  }

  lemma OrdinaryOpMirrors(c: Core, op: Op, s: Socket, n: nat, env: Env)
    requires Mirroring(c, s, n) && OrdinaryOp(op) && ActiveHere(c, s, env) && ActiveHere(ApplyOne(c, op, env), s, env)
    ensures Mirroring(ApplyOne(c, op, env), s, n)
  {
    if QuietOp(op) {
      QuietOpMirrors(c, op, s, n, env);
    } else {
      SessionOpReflects(c, op, s, n, env);
    }
  }

  /** A provider active before and after a handler's calls was active all along, and misses nothing. */
  lemma {:induction false} OrdinaryMirrors(c: Core, ops: seq<Op>, s: Socket, n: nat, env: Env)
    requires env.Valid() && Ordinary(ops) && Mirroring(c, s, n)
    requires ActiveHere(c, s, env) && ActiveHere(Apply(c, ops, env), s, env)
    ensures Mirroring(Apply(c, ops, env), s, n)
    decreases |ops|
  {
    if ops != [] {
      var c1 := ApplyOne(c, ops[0], env);
      OrdinarySettles(c, ops[0], env);
      if c1.registry != c.registry {
        SettledStays(c1, ops[1..], env);
      }
      OrdinaryOpMirrors(c, ops[0], s, n, env);
      OrdinaryMirrors(c1, ops[1..], s, n, env);
    }
  }

  // ---- handlers

  lemma DisconnectMirrors(d: Daemon, t: Socket, s: Socket, n: nat, env: Env)
    requires env.Valid() && Mirroring(d.core, s, n) && CoreInv(d.core)
    requires ActiveHere(d.core, s, env) && ActiveHere(Apply(d.core, Disconnect(d, t, env).ops, env), s, env)
    ensures Mirroring(Apply(d.core, Disconnect(d, t, env).ops, env), s, n)
  {
    hide Apply;
    var rest := [DoRemoveWaiter(t)] + Cleanup(d, t, env) + [DoEnsure];
    DisconnectCalls(d, t, env);
    assert Disconnect(d, t, env).ops == [DoUnsubscribe(t), DoRemoveProvider(t)] + rest;
    DepartureMirrors(d.core, t, rest, s, n, env);
  }

  lemma DepartureMirrors(c: Core, t: Socket, rest: seq<Op>, s: Socket, n: nat, env: Env)
    requires env.Valid() && Mirroring(c, s, n) && Ordinary(rest)
    requires ActiveHere(c, s, env) && ActiveHere(Apply(c, [DoUnsubscribe(t), DoRemoveProvider(t)] + rest, env), s, env)
    ensures Mirroring(Apply(c, [DoUnsubscribe(t), DoRemoveProvider(t)] + rest, env), s, n)
  {
    hide Apply, Core.RemoveProvider, Mirroring, Ordinary;
    FirstTwo(c, DoUnsubscribe(t), DoRemoveProvider(t), rest, env);
    QuietOpMirrors(c, DoUnsubscribe(t), s, n, env);
    RemovalMirrors(ApplyOne(c, DoUnsubscribe(t), env), t, rest, s, n, env);
  }

  lemma FirstTwo(c: Core, a: Op, b: Op, rest: seq<Op>, env: Env)
    ensures Apply(c, [a, b] + rest, env) == Apply(ApplyOne(ApplyOne(c, a, env), b, env), rest, env)
  {
    assert [a, b] + rest == [a] + ([b] + rest);
    ApplyConcat(c, [a], [b] + rest, env);
    ApplySingle(c, a, env);
    ApplyConcat(ApplyOne(c, a, env), [b], rest, env);
    ApplySingle(ApplyOne(c, a, env), b, env);
  }

  lemma RemovalMirrors(c: Core, t: Socket, rest: seq<Op>, s: Socket, n: nat, env: Env)
    requires env.Valid() && Mirroring(c, s, n) && Ordinary(rest)
    requires ActiveHere(c, s, env) && ActiveHere(Apply(c.RemoveProvider(t, env), rest, env), s, env)
    ensures Mirroring(Apply(c.RemoveProvider(t, env), rest, env), s, n)
  {
    var c1 := c.RemoveProvider(t, env);
    if t in c.registry.providers {
      RecomputeIdempotent(c.registry.Remove(t), env);
      assert Settled(c1, env);
      SettledStays(c1, rest, env);
    }
    RegistryOpMirrors(c, DoRemoveProvider(t), s, n, env);
    OrdinaryMirrors(c1, rest, s, n, env);
  }

  lemma EffectOrdinary(d: Daemon, input: Input, env: Env)
    requires !SingleCall(input) && !input.DisconnectInput?
    ensures Ordinary(EffectOf(d, input, env).ops)
  {
    if !Refused(d, input) {
      HandlersCallUsually(d, input, env);
    }
  }

  lemma SingleCallMirrors(d: Daemon, input: Input, s: Socket, n: nat, env: Env)
    requires env.Valid() && Mirroring(d.core, s, n) && SingleCall(input) && input != NextInput(s)
    requires ActiveHere(d.core, s, env) && ActiveHere(Apply(d.core, EffectOf(d, input, env).ops, env), s, env)
    ensures Mirroring(Apply(d.core, EffectOf(d, input, env).ops, env), s, n)
  {
    hide Mirroring, ActiveHere, Apply, ApplyOne, Env.Valid;
    var op := EffectOf(d, input, env).ops[0];
    assert EffectOf(d, input, env).ops == [op];
    ApplySingle(d.core, op, env);
    SingleOpMirrors(d.core, op, s, n, env);
  }

  lemma SingleOpMirrors(c: Core, op: Op, s: Socket, n: nat, env: Env)
    requires op.DoSubscribe? || op.DoNext? || op.DoRegister? || op.DoHeartbeat? || op.DoUnregister? || op.DoPrune?
    requires env.Valid() && Mirroring(c, s, n) && op != DoNext(s)
    requires ActiveHere(c, s, env) && ActiveHere(ApplyOne(c, op, env), s, env)
    ensures Mirroring(ApplyOne(c, op, env), s, n)
  {
    hide Core.Subscribe, Core.Register, Core.Heartbeat, Core.Unregister, Core.Prune, MirrorOf, Mirrored, Env.Valid, StoreInv;
    if op.DoSubscribe? {
      if op.s == s {
        SubscribeMirrors(c, s, n, env);
      } else {
        OtherSubscribes(c, op.s, s, n, env);
      }
    } else if op.DoNext? {
      TalkMirrors(c, ApplyOne(c, op, env), s, n);
    } else {
      RegistryOpMirrors(c, op, s, n, env);
    }
  }

  /** A step during which the provider stays active keeps its mirror true. */
  lemma StepMirrors(d: Daemon, input: Input, s: Socket, n: nat, env: Env)
    requires env.Valid() && CoreInv(d.core) && Mirroring(d.core, s, n) && input != NextInput(s)
    requires ActiveHere(d.core, s, env) && ActiveHere(Apply(d.core, EffectOf(d, input, env).ops, env), s, env)
    ensures Mirroring(Apply(d.core, EffectOf(d, input, env).ops, env), s, n)
  {
    if SingleCall(input) {
      SingleCallMirrors(d, input, s, n, env);
    } else if input.DisconnectInput? {
      DisconnectMirrors(d, input.s, s, n, env);
    } else {
      EffectOrdinary(d, input, env);
      OrdinaryMirrors(d.core, EffectOf(d, input, env).ops, s, n, env);
    }
  }

  // ---- runs

  /** A peer that never calls `next` never waits. */
  lemma OpNeverWaits(c: Core, op: Op, s: Socket, env: Env)
    requires s !in c.queue.waiters && op != DoNext(s)
    ensures s !in ApplyOne(c, op, env).queue.waiters
  {
    if IsSessionOp(op) {
      SessionOpFrame(c, op, env);
    } else if RegistryOp(op) {
      RegistryOpQueue(c, op, env);
    } else if op.DoRemoveWaiter? {
      WithoutElements(c.queue.waiters, op.s);
    }
  }

  lemma RegistryOpQueue(c: Core, op: Op, env: Env)
    requires RegistryOp(op)
    ensures ApplyOne(c, op, env).queue == c.queue
  {
  }

  lemma {:induction false} OpsNeverWait(c: Core, ops: seq<Op>, s: Socket, env: Env)
    requires s !in c.queue.waiters && DoNext(s) !in ops
    ensures s !in Apply(c, ops, env).queue.waiters
    decreases |ops|
  {
    if ops != [] {
      OpNeverWaits(c, ops[0], s, env);
      OpsNeverWait(ApplyOne(c, ops[0], env), ops[1..], s, env);
    }
  }

  lemma NoNext(d: Daemon, input: Input, s: Socket, env: Env)
    requires input != NextInput(s)
    ensures DoNext(s) !in EffectOf(d, input, env).ops
  {
    hide Disconnect, Respond, Daemons.Cancel, PinentryHandleRequest, PinentryHandleResult, KeyringHandleRequest;
    if input.DisconnectInput? {
      DisconnectCalls(d, input.s, env);
    } else if !SingleCall(input) {
      EffectOrdinary(d, input, env);
    }
  }

  ghost predicate NeverCallsNext(steps: seq<Step>, s: Socket) {
    forall i :: 0 <= i < |steps| ==> steps[i].input != NextInput(s)
  }

  lemma {:induction false} NeverWaits(steps: seq<Step>, s: Socket, k: nat)
    requires NeverCallsNext(steps, s) && k <= |steps|
    ensures s !in Run(INITIAL, steps[..k]).core.queue.waiters
    decreases k
  {
    if k > 0 {
      NeverWaits(steps, s, k - 1);
      RunStep(steps, k - 1);
      var d := Run(INITIAL, steps[..k - 1]);
      NoNext(d, steps[k - 1].input, s, steps[k - 1].env);
      OpsNeverWait(d.core, EffectOf(d, steps[k - 1].input, steps[k - 1].env).ops, s, steps[k - 1].env);
    }
  }

  /** After the first `k` steps `s` is the active provider, and it is connected while the next one is handled. */
  ghost predicate ActiveAt(steps: seq<Step>, k: nat, s: Socket) {
    && k <= |steps|
    && s in Run(INITIAL, steps[..k]).core.registry.providers && Run(INITIAL, steps[..k]).core.registry.active == Some(s)
  }

  function InboxAt(steps: seq<Step>, k: nat, s: Socket): seq<Msg>
    requires k <= |steps|
  {
    Run(INITIAL, steps[..k]).core.Inbox(s)
  }

  ghost predicate MirroringAt(steps: seq<Step>, k: nat, s: Socket, n: nat) {
    k <= |steps| && Mirroring(Run(INITIAL, steps[..k]).core, s, n)
  }

  lemma MirroringBegins(steps: seq<Step>, m: nat, s: Socket)
    requires ValidSteps(steps) && NeverCallsNext(steps, s) && m < |steps| && steps[m].input == SubscribeInput(s)
    requires ActiveAt(steps, m, s) && s in steps[m].env.connected
    ensures MirroringAt(steps, m + 1, s, |InboxAt(steps, m, s)|)
  {
    var d := Run(INITIAL, steps[..m]);
    RunKeeps(steps[..m]);
    NeverWaits(steps, s, m);
    RunStep(steps, m);
    FirstSubscription(d.core, s, steps[m].env);
  }

  lemma FirstSubscription(c: Core, s: Socket, env: Env)
    requires env.Valid() && StoreInv(c.store) && s !in c.queue.waiters && ActiveHere(c, s, env)
    ensures Mirroring(Apply(c, [DoSubscribe(s)], env), s, |c.Inbox(s)|)
  {
    hide Core.Subscribe, Mirroring, StoreInv;
    ApplySingle(c, DoSubscribe(s), env);
    SubscribeMirrors(c, s, |c.Inbox(s)|, env);
  }

  lemma MirroringGoesOn(steps: seq<Step>, k: nat, s: Socket, n: nat)
    requires ValidSteps(steps) && NeverCallsNext(steps, s) && k < |steps| && MirroringAt(steps, k, s, n)
    requires ActiveAt(steps, k, s) && ActiveAt(steps, k + 1, s) && s in steps[k].env.connected
    ensures MirroringAt(steps, k + 1, s, n)
  {
    RunKeeps(steps[..k]);
    RunStep(steps, k);
    StepMirrors(Run(INITIAL, steps[..k]), steps[k].input, s, n, steps[k].env);
  }

  /** From the subscription of an active provider on, and for as long as it stays active, the events sent to it rebuild
      the store: the same ids and sources, and for each id the session's current state as its last update. An id
      without an update is a polkit session nothing has been said about yet. */
  lemma {:induction false} ActiveProviderMirrorsStore(steps: seq<Step>, m: nat, s: Socket, k: nat)
    requires ValidSteps(steps) && NeverCallsNext(steps, s)
    requires m < k <= |steps| && steps[m].input == SubscribeInput(s)
    requires forall i :: m <= i <= k ==> ActiveAt(steps, i, s)
    requires forall i :: m <= i < k ==> s in steps[i].env.connected
    ensures var n := |InboxAt(steps, m, s)|;
            MirroringAt(steps, k, s, n) && Mirrored(MirrorOf(InboxAt(steps, k, s)[n..]), Run(INITIAL, steps[..k]).core.store)
    decreases k
  {
    hide Run;
    if k == m + 1 {
      MirroringBegins(steps, m, s);
    } else {
      ActiveProviderMirrorsStore(steps, m, s, k - 1);
      MirroringGoesOn(steps, k - 1, s, |InboxAt(steps, m, s)|);
    }
  }
}
