/** Consequences for the people who use the daemon: who may close what, and what a disconnection leaves behind. */
module SessionTheorems {
  import opened Base
  import opened Sessions
  import opened EventQueues
  import opened Environments
  import opened ProviderRegistries
  import opened AgentCore
  import opened CoreInvariants
  import opened CoreFrames
  import opened KeyringManagers
  import opened PinentryManagers
  import opened PolkitListeners
  import opened Daemons
  import opened TableAgreement
  import opened StepOutcome

  // ---- success

  /** What entitles a session to end in success: polkit granted it, or the active UI answered the keyring prompt,
      or the process that owns the pinentry flow said so. */
  ghost predicate Granted(d: Daemon, input: Input, id: Id) {
    match input
    case PolkitCompleted(attempt, gained) => gained && attempt in d.polkit.attempts && d.polkit.attempts[attempt] == id
    case RespondInput(s, i, _) => i == id && id in d.keyring && d.core.registry.Authorizes(s)
    case ResultInput(_, pid, i, word, _) =>
      i == id && id != "" && word.SaysSuccess? && IsPinentry(d.core.store, id) && id in d.pinentry.owners && d.pinentry.owners[id] == pid
    case _ => false
  }

  ghost function NewClosings(d: Daemon, d': Daemon): seq<Closing>
    requires Closings(d.core.queue.routed) <= Closings(d'.core.queue.routed)
  {
    Closings(d'.core.queue.routed)[|Closings(d.core.queue.routed)|..]
  }

  lemma {:induction false} ClosesEachHas(cs: seq<Closing>, ids: set<Id>, result: Result, id: Id, r: Result)
    requires ClosesEach(cs, ids, result)
    ensures Closing(id, r) in cs <==> id in ids && r == result
    decreases |cs|
  {
    if cs != [] {
      ClosesEachHas(cs[1..], ids - {cs[0].id}, result, id, r);
      assert cs == [cs[0]] + cs[1..];
    }
  }

  /** A session is announced closed with success exactly when it was granted. */
  lemma SuccessExactlyWhenGranted(d: Daemon, input: Input, env: Env, id: Id)
    requires env.Valid() && DaemonInv(d)
    ensures var d' := Handle(d, input, env);
            && Closings(d.core.queue.routed) <= Closings(d'.core.queue.routed)
            && (Closing(id, Success) in NewClosings(d, d') <==> Granted(d, input, id))
  {
    hide Apply, ApplyOne, CoreInv, ClosesEach, PinTables.CleanupAwaiting, Daemons.Cancel;
    StepOpensAndCloses(d, input, env);
    ClosesEachHas(NewClosings(d, Handle(d, input, env)), Closes(d, input), ClosesAs(input), id, Success);
    var m := LiveSessions(d.core.store);
    assert IsPinentry(d.core.store, id) ==> id in m && id in d.pinentry.owners;
  }

  // ---- disconnection

  /** The socket occurs nowhere any more. */
  ghost predicate Gone(c: Core, s: Socket) {
    s !in c.subscribers && s !in c.registry.providers && s !in c.queue.waiters
  }

  lemma OpKeepsGone(c: Core, op: Op, s: Socket, env: Env)
    requires env.Valid() && Gone(c, s)
    requires IsSessionOp(op) || op.DoEnsure?
    ensures Gone(ApplyOne(c, op, env), s)
  {
    if IsSessionOp(op) {
      SessionOpFrame(c, op, env);
      RecomputeElects(c.registry, env);
    }
  }

  lemma {:induction false} OpsKeepGone(c: Core, ops: seq<Op>, s: Socket, env: Env)
    requires env.Valid() && Gone(c, s)
    requires forall i :: 0 <= i < |ops| ==> IsSessionOp(ops[i]) || ops[i].DoEnsure?
    ensures Gone(Apply(c, ops, env), s)
    decreases |ops|
  {
    if ops != [] {
      OpKeepsGone(c, ops[0], s, env);
      OpsKeepGone(ApplyOne(c, ops[0], env), ops[1..], s, env);
    }
  }

  lemma {:induction false} CancellationsAreSessionOps(ids: seq<Id>)
    ensures forall i :: 0 <= i < |Cancellations(ids)| ==> IsSessionOp(Cancellations(ids)[i])
    ensures forall i :: 0 <= i < |Disconnections(ids)| ==> IsSessionOp(Disconnections(ids)[i])
    decreases |ids|
  {
    if ids != [] {
      CancellationsAreSessionOps(ids[1..]);
    }
  }

  lemma FrontGone(c: Core, s: Socket, env: Env)
    requires env.Valid()
    ensures Gone(Apply(c, [DoUnsubscribe(s), DoRemoveProvider(s), DoRemoveWaiter(s)], env), s)
  {
    hide Registry.Recompute, Core.Inbox, Without;
    var front := [DoUnsubscribe(s), DoRemoveProvider(s), DoRemoveWaiter(s)];
    var c1 := ApplyOne(c, front[0], env);
    var c2 := ApplyOne(c1, front[1], env);
    var c3 := ApplyOne(c2, front[2], env);
    assert front[1..][1..] == [DoRemoveWaiter(s)] && front[1..][0] == front[1];
    assert Apply(c, front, env) == Apply(c1, front[1..], env) == Apply(c2, [DoRemoveWaiter(s)], env) == Apply(c3, [], env);
    RecomputeElects(c1.registry.Remove(s), env);
    WithoutElements(c2.queue.waiters, s);
  }

  lemma CoreGone(d: Daemon, s: Socket, env: Env)
    requires env.Valid()
    ensures Gone(Apply(d.core, Disconnect(d, s, env).ops, env), s)
  {
    hide Apply;
    var front := [DoUnsubscribe(s), DoRemoveProvider(s), DoRemoveWaiter(s)];
    var kops, pops := KeyringCleanup(d.keyring, s, env).1, PinentryCleanup(d.pinentry, s, env).1;
    CancellationsAreSessionOps(Only(env.idOrder(d.keyring.Keys), KeyringOwned(d.keyring, s)));
    CancellationsAreSessionOps(Only(env.idOrder(d.pinentry.pending.Keys), PinentryOwned(d.pinentry, s)));
    assert Disconnect(d, s, env).ops == front + (kops + pops + [DoEnsure]);
    ApplyConcat(d.core, front, kops + pops + [DoEnsure], env);
    FrontGone(d.core, s, env);
    OpsKeepGone(Apply(d.core, front, env), kops + pops + [DoEnsure], s, env);
  }

  /** Forgetting flows touches only those flows. */
  lemma {:induction false} ForgetAllForgets(p: PinTables, ids: seq<Id>)
    requires FlowInv(p)
    ensures var r := p.ForgetAll(ids);
            && FlowInv(r)
            && (forall id :: id !in ids ==> FlowAgrees(p, r, id))
            && (forall id :: id in ids ==> Forgotten(r, id))
            && (forall id :: id in r.pending ==> id in p.pending && r.pending[id] == p.pending[id])
    decreases |ids|
  {
    if ids != [] {
      ForgetKeeps(p, ids[0]);
      ForgetAllForgets(p.Forget(ids[0]), ids[1..]);
      assert ids == [ids[0]] + ids[1..];
      forall id | id !in ids ensures FlowAgrees(p, p.ForgetAll(ids), id) {
        assert FlowAgrees(p, p.Forget(ids[0]), id);
      }
      assert Forgotten(p.Forget(ids[0]), ids[0]);
      if ids[0] !in ids[1..] {
        assert FlowAgrees(p.Forget(ids[0]), p.ForgetAll(ids), ids[0]);
      }
    }
  }

  /** Everything the tables say about one flow. */
  ghost predicate FlowAgrees(p: PinTables, r: PinTables, id: Id) {
    && (id in p.pending <==> id in r.pending) && (id in p.pending ==> r.pending[id] == p.pending[id])
    && (id in p.awaiting <==> id in r.awaiting) && (id in p.awaiting ==> r.awaiting[id] == p.awaiting[id])
    && (id in p.owners <==> id in r.owners) && (id in p.owners ==> r.owners[id] == p.owners[id])
    && (id in p.reported <==> id in r.reported)
    && (id in p.keyinfos <==> id in r.keyinfos) && (id in p.keyinfos ==> r.keyinfos[id] == p.keyinfos[id])
  }

  ghost predicate Forgotten(p: PinTables, id: Id) {
    id !in p.pending && id !in p.awaiting && id !in p.owners && id !in p.reported && id !in p.keyinfos
  }

  /** After a disconnection the socket is in no list, its pending requests are forgotten, and every other flow is
      as it was, including those awaiting an outcome. */
  lemma DisconnectScrubs(d: Daemon, s: Socket, env: Env)
    requires env.Valid() && DaemonInv(d)
    ensures var d' := Handle(d, DisconnectInput(s), env);
            && Gone(d'.core, s) && d'.core.registry.active != Some(s)
            && d'.keyring == d.keyring - KeyringOwned(d.keyring, s)
            && FlowsScrubbed(d.pinentry, d'.pinentry, s)
            && d'.polkit == d.polkit
  {
    HandleKeeps(d, DisconnectInput(s), env);
    CoreGone(d, s, env);
    ValidWalks(d, env);
    CleanupScrubs(d.pinentry, s, env);
  }

  /** It closes exactly the sessions pending on the socket, each once and as cancelled. */
  lemma DisconnectClosesItsOwn(d: Daemon, s: Socket, env: Env)
    requires env.Valid() && DaemonInv(d)
    ensures var d' := Handle(d, DisconnectInput(s), env);
            var its := KeyringOwned(d.keyring, s) + PinentrySessionsOf(d, s);
            && LiveSessions(d'.core.store) == LiveSessions(d.core.store) - its
            && Closings(d.core.queue.routed) <= Closings(d'.core.queue.routed)
            && ClosesEach(NewClosings(d, d'), its, Cancelled)
  {
    hide Handle, DaemonInv;
    StepOpensAndCloses(d, DisconnectInput(s), env);
    var m := LiveSessions(d.core.store);
    assert (m - Closes(d, DisconnectInput(s))) + map[] == m - (KeyringOwned(d.keyring, s) + PinentrySessionsOf(d, s));
  }

  ghost predicate FlowsScrubbed(p: PinTables, p': PinTables, s: Socket) {
    && (forall id :: id in p'.pending ==> p'.pending[id].socket != s)
    && (forall id :: id !in PinentryOwned(p, s) ==> FlowAgrees(p, p', id))
    && (forall id :: id in PinentryOwned(p, s) ==> Forgotten(p', id))
  }

  lemma CleanupScrubs(p: PinTables, s: Socket, env: Env)
    requires FlowInv(p) && Enumerates(env.idOrder(p.pending.Keys), p.pending.Keys)
    ensures FlowsScrubbed(p, PinentryCleanup(p, s, env).0, s)
  {
    CleanupIds(p, s, env);
    var ids := Only(env.idOrder(p.pending.Keys), PinentryOwned(p, s));
    ForgetAllForgets(p, ids);
    forall id | id in p.ForgetAll(ids).pending ensures p.ForgetAll(ids).pending[id].socket != s {
      assert id !in ids && id !in PinentryOwned(p, s) && p.ForgetAll(ids).pending[id] == p.pending[id];
    }
  }

  // ---- the keyring table

  function KeyringIds(m: Live): set<Id> {
    set id | id in m && m[id] == Keyring
  }

  /** Every live keyring session still has the request that can answer it, and no request lacks its session. */
  ghost predicate KeyringExact(d: Daemon) {
    d.keyring.Keys == KeyringIds(LiveSessions(d.core.store))
  }

  /** A keyring request reusing the cookie of one still pending. */
  predicate ReusesCookie(d: Daemon, input: Input, env: Env) {
    input.KeyringInput? && KeyringCookie(input.keyringMsg, env) in d.keyring
  }

  /** Polkit and pinentry steps close no keyring session. */
  lemma ClosesNoKeyring(d: Daemon, input: Input)
    requires DaemonInv(d)
    requires input.PolkitCompleted? || input.PolkitCancelAll? || input.ResultInput? || input.OutcomeTimer?
    ensures Closes(d, input) !! d.keyring.Keys
  {
    var m := LiveSessions(d.core.store);
    forall id | id in Closes(d, input) ensures id in m && m[id] != Keyring {
      assert id in d.polkit.states ==> id in m && m[id] == Polkit;
    }
    assert KeyringInv(d.keyring, m);
  }

  lemma DisconnectTakesItsOwn(d: Daemon, s: Socket)
    requires KeyringInv(d.keyring, LiveSessions(d.core.store))
    ensures d.keyring.Keys - Closes(d, DisconnectInput(s)) == d.keyring.Keys - KeyringOwned(d.keyring, s)
  {
    assert forall id :: id in PinentrySessionsOf(d, s) ==> id !in d.keyring;
  }

  lemma AnswerTakesItsOwn(d: Daemon, input: Input, env: Env)
    requires KeyringInv(d.keyring, LiveSessions(d.core.store)) && (input.RespondInput? || input.CancelInput?)
    ensures EffectOf(d, input, env).keyring.Keys == d.keyring.Keys - Closes(d, input)
  {
    hide PinTables.Forget, PinTables.Answered, PolkitTables.CancelPending, PolkitTables.Submit;
    if input.id in d.keyring {
      assert input.id in LiveSessions(d.core.store);
    }
  }

  lemma UntouchedKeyring(d: Daemon, input: Input, env: Env)
    requires !input.KeyringInput? && !input.DisconnectInput? && !input.RespondInput? && !input.CancelInput?
    ensures EffectOf(d, input, env).keyring == d.keyring
    ensures input.PolkitCompleted? || input.PolkitCancelAll? || input.ResultInput? || input.OutcomeTimer? || Closes(d, input) == {}
  {
    hide PinentryHandleRequest, PinentryHandleResult, PolkitTables.OnCompleted, PolkitTables.CancelEach, PolkitTables.Initiate;
  }

  /** Requests leave the keyring table together with their sessions, except when a cookie is reused. */
  lemma KeyringTableStep(d: Daemon, input: Input, env: Env)
    requires env.Valid() && DaemonInv(d) && !input.KeyringInput?
    ensures EffectOf(d, input, env).keyring.Keys == d.keyring.Keys - Closes(d, input)
  {
    assert KeyringInv(d.keyring, LiveSessions(d.core.store));
    hide DaemonInv, EffectOf, Closes, KeyringInv, LiveSessions;
    if input.RespondInput? || input.CancelInput? {
      AnswerTakesItsOwn(d, input, env);
    } else if input.DisconnectInput? {
      DisconnectTakesItsOwn(d, input.s);
      DisconnectKeyring(d, input.s, env);
    } else {
      UntouchedKeyring(d, input, env);
      if Closes(d, input) != {} {
        ClosesNoKeyring(d, input);
      }
    }
  }

  lemma DisconnectKeyring(d: Daemon, s: Socket, env: Env)
    ensures EffectOf(d, DisconnectInput(s), env).keyring.Keys == d.keyring.Keys - KeyringOwned(d.keyring, s)
  {
    hide PinentryCleanup;
  }

  lemma KeyringIdsOf(m: Live, ended: set<Id>, begun: Live)
    requires begun.Keys !! m.Keys
    ensures KeyringIds((m - ended) + begun) == KeyringIds(m) - ended + KeyringIds(begun)
  {
  }

  lemma KeyringIdsStep(d: Daemon, input: Input, env: Env)
    requires env.Valid() && DaemonInv(d)
    ensures KeyringIds(LiveSessions(Handle(d, input, env).core.store)) ==
            KeyringIds(LiveSessions(d.core.store)) - Closes(d, input) + KeyringIds(Opens(d, input, env))
  {
    StepOpensAndCloses(d, input, env);
    KeyringIdsOf(LiveSessions(d.core.store), Closes(d, input), Opens(d, input, env));
  }

  lemma KeyringRequestExact(d: Daemon, s: Socket, pid: Pid, msg: KeyringMessage, env: Env)
    requires env.Valid() && DaemonInv(d) && KeyringExact(d)
    ensures KeyringExact(Handle(d, KeyringInput(s, pid, msg), env)) <==> KeyringCookie(msg, env) !in d.keyring
  {
    hide DaemonInv, KeyringInv, TablesInv, CoreInv;
    var input, cookie := KeyringInput(s, pid, msg), KeyringCookie(msg, env);
    KeyringIdsStep(d, input, env);
    if cookie !in d.core.store {
      assert KeyringIds(Opens(d, input, env)) == {cookie};
    } else {
      assert KeyringIds(Opens(d, input, env)) == {};
    }
  }

  lemma KeyringExactStep(d: Daemon, input: Input, env: Env)
    requires env.Valid() && DaemonInv(d) && KeyringExact(d)
    ensures KeyringExact(Handle(d, input, env)) <==> !ReusesCookie(d, input, env)
  {
    hide EffectOf, Closes, DaemonInv, Apply;
    if input.KeyringInput? {
      KeyringRequestExact(d, input.s, input.pid, input.keyringMsg, env);
    } else {
      KeyringIdsStep(d, input, env);
      KeyringTableStep(d, input, env);
      assert KeyringIds(Opens(d, input, env)) == {};
    }
  }

  /** A keyring session that has lost its request can never be closed again. */
  lemma StrandedStays(d: Daemon, input: Input, env: Env, id: Id)
    requires env.Valid() && DaemonInv(d)
    requires id in KeyringIds(LiveSessions(d.core.store)) && id !in d.keyring
    ensures var d' := Handle(d, input, env); id in KeyringIds(LiveSessions(d'.core.store)) && id !in d'.keyring
  {
    hide Apply, CoreInv;
    KeyringIdsStep(d, input, env);
    assert PolkitInv(d.polkit, LiveSessions(d.core.store)) && id !in d.polkit.states;
    assert id !in Closes(d, input);
    if !input.KeyringInput? {
      KeyringTableStep(d, input, env);
    }
  }

  /** No keyring request of the run reused the cookie of one still pending. */
  ghost predicate NoCookieReused(steps: seq<Step>) {
    steps == [] ||
    var n := |steps| - 1;
    NoCookieReused(steps[..n]) && !ReusesCookie(Run(INITIAL, steps[..n]), steps[n].input, steps[n].env)
  }

  /** The keyring table matches the live keyring sessions exactly in those runs in which no keyring request ever
      reused a pending cookie: one such request strands a session for good. */
  lemma {:induction false} KeyringExactIff(steps: seq<Step>)
    requires ValidSteps(steps)
    ensures KeyringExact(Run(INITIAL, steps)) <==> NoCookieReused(steps)
  {
    if steps != [] {
      var n := |steps| - 1;
      var d, last := Run(INITIAL, steps[..n]), steps[n];
      KeyringExactIff(steps[..n]);
      RunKeeps(steps[..n]);
      if KeyringExact(d) {
        KeyringExactStep(d, last.input, last.env);
      } else {
        assert KeyringInv(d.keyring, LiveSessions(d.core.store));
        var id :| id in KeyringIds(LiveSessions(d.core.store)) && id !in d.keyring;
        StrandedStays(d, last.input, last.env, id);
      }
    } else {
      assert KeyringIds(LiveSessions(INITIAL.core.store)) == {};
    }
  }
}
