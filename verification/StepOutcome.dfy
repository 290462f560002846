/** Which sessions a step opens and closes, and how: in closed form, from the state before the step. */
module StepOutcome {
  import opened Base
  import opened Sessions
  import opened EventQueues
  import opened Environments
  import opened ProviderRegistries
  import opened AgentCore
  import opened CoreInvariants
  import opened KeyringManagers
  import opened PinentryManagers
  import opened PolkitListeners
  import opened Daemons
  import opened TableAgreement
  import opened Bulletins

  // ---- closed events

  datatype Closing = Closing(id: Id, result: Result)

  /** The closed events of a trace, without their error texts. */
  function Closings(trace: seq<Event>): seq<Closing> {
    if trace == [] then []
    else
      var e := trace[|trace| - 1];
      Closings(trace[..|trace| - 1]) + (if e.Closed? then [Closing(e.id, e.result)] else [])
  }

  lemma ClosingsStep(trace: seq<Event>, e: Event)
    ensures Closings(trace + [e]) == Closings(trace) + if e.Closed? then [Closing(e.id, e.result)] else []
  {
    assert (trace + [e])[..|trace|] == trace;
  }

  /** What one agent call closes. */
  function ClosingBy(m: Live, op: Op): seq<Closing> {
    match op
    case DoClose(id, result) => if id in m then [Closing(id, result)] else []
    case DoComplete(id, success) => if id in m then [Closing(id, if success then Success else Cancelled)] else []
    case DoCloseFlow(id, result, _) => if id in m && m[id] == Pinentry then [Closing(id, result)] else []
    case _ => []
  }

  function ClosingsBy(m: Live, ops: seq<Op>): seq<Closing>
    decreases |ops|
  {
    if ops == [] then [] else ClosingBy(m, ops[0]) + ClosingsBy(LiveAfter(m, ops[0]), ops[1..])
  }

  /** `c1` has routed exactly one event more than `c`. */
  ghost predicate Routed(c: Core, c1: Core, e: Event) {
    c1.queue.routed == c.queue.routed + [e]
  }

  lemma RouteTells(c: Core, e: Event, env: Env)
    requires QueueInv(c.queue)
    ensures Routed(c, c.Route(e, env), e)
    ensures Closings(c.Route(e, env).queue.routed) == Closings(c.queue.routed) + if e.Closed? then [Closing(e.id, e.result)] else []
  {
    RouteChanges(c, e, env);
    RouteKeeps(c.queue, e);
    ClosingsStep(c.queue.routed, e);
  }

  lemma CloseTells(c: Core, id: Id, result: Result, env: Env)
    requires CoreInv(c) && env.Valid()
    ensures Closings(c.Close(id, result, env).queue.routed) == Closings(c.queue.routed) + if id in c.store then [Closing(id, result)] else []
  {
    if id in c.store {
      RouteTells(c.(store := c.store - {id}).RecomputeIfIdle(env), c.store[id].Close(result).ClosedEvent(), env);
    }
  }

  lemma CompleteTells(c: Core, id: Id, success: bool, env: Env)
    requires CoreInv(c) && env.Valid()
    ensures Closings(c.Complete(id, success, env).queue.routed) ==
            Closings(c.queue.routed) + if id in c.store then [Closing(id, if success then Success else Cancelled)] else []
  {
    if id in c.store {
      RouteTells(c.(store := c.store - {id}), c.store[id].Close(if success then Success else Cancelled).ClosedEvent(), env);
    }
  }

  lemma UpdateTells(c: Core, d: SessionData, env: Env)
    requires QueueInv(c.queue)
    ensures Closings(c.Update(d, env).queue.routed) == Closings(c.queue.routed)
  {
    RouteTells(c.(store := c.store[d.id := d]), d.UpdatedEvent(), env);
  }

  lemma CreateTells(c: Core, id: Id, source: Source, context: Context, env: Env)
    requires QueueInv(c.queue)
    ensures Closings(c.Create(id, source, context, env).queue.routed) == Closings(c.queue.routed)
  {
    if id !in c.store {
      var d := NewSession(id, source, context);
      RouteTells(c.(store := c.store[id := d]), d.CreatedEvent(), env);
    }
  }

  lemma OpeningTells(c: Core, op: Op, env: Env)
    requires CoreInv(c) && env.Valid() && (op.DoCreate? || op.DoOpen? || op.DoReprompt?)
    ensures Closings(ApplyOne(c, op, env).queue.routed) == Closings(c.queue.routed)
  {
    match op
    case DoCreate(id, source, context) => CreateTells(c, id, source, context, env);
    case DoOpen(id, source, context, prompt, clearError) =>
      CreateTells(c, id, source, context, env);
      CreateKeeps(c, id, source, context, env);
      var c1 := c.Create(id, source, context, env);
      if id in c1.store {
        UpdateTells(c1, c1.store[id].SetPrompt(prompt, false, clearError), env);
      }
    case DoReprompt(id, cur, max, prompt) =>
      var c1 := c.UpdatePinentryRetry(id, cur, max);
      if id in c1.store {
        UpdateTells(c1, c1.store[id].SetPrompt(prompt, false, false), env);
      }
  }

  lemma UpdatingTells(c: Core, op: Op, env: Env)
    requires CoreInv(c) && (op.DoPrompt? || op.DoError? || op.DoInfo?)
    ensures Closings(ApplyOne(c, op, env).queue.routed) == Closings(c.queue.routed)
  {
    if op.id in c.store {
      var d := c.store[op.id];
      match op
      case DoPrompt(id, prompt, echo) => UpdateTells(c, d.SetPrompt(prompt, echo, true), env);
      case DoError(id, error) => UpdateTells(c, d.SetError(error), env);
      case DoInfo(id, info) => UpdateTells(c, d.SetInfo(info), env);
    }
  }

  lemma CloseFlowTells(c: Core, id: Id, result: Result, error: string, env: Env)
    requires CoreInv(c) && env.Valid()
    ensures Closings(c.CloseFlow(id, result, error, env).queue.routed) ==
            Closings(c.queue.routed) + if IsPinentry(c.store, id) then [Closing(id, result)] else []
  {
    if IsPinentry(c.store, id) {
      if error == "" {
        CloseTells(c, id, result, env);
      } else {
        UpdateTells(c, c.store[id].SetError(error), env);
        UpdateKeeps(c, c.store[id].SetError(error), env);
        CloseLive(c, id, result, true, env);
        var c1 := c.UpdateError(id, error, env);
        assert id in c1.store by { RouteKeepsStore(c.(store := c.store[id := c.store[id].SetError(error)]), c.store[id].SetError(error).UpdatedEvent(), env); }
        CloseTells(c1, id, result, env);
      }
    }
  }

  lemma OtherTells(c: Core, op: Op, env: Env)
    requires CoreInv(c) && LeavesStore(op)
    ensures ApplyOne(c, op, env).queue.routed == c.queue.routed
  {
    hide ApplyOne, CoreInv;
    OtherBoard(c, op, env);
  }

  lemma OpTells(c: Core, op: Op, env: Env)
    requires CoreInv(c) && env.Valid()
    ensures Closings(ApplyOne(c, op, env).queue.routed) == Closings(c.queue.routed) + ClosingBy(LiveSessions(c.store), op)
  {
    if op.DoClose? {
      CloseTells(c, op.id, op.result, env);
    } else if op.DoComplete? {
      CompleteTells(c, op.id, op.success, env);
    } else if op.DoCloseFlow? {
      CloseFlowTells(c, op.id, op.result, op.error, env);
    } else if op.DoCreate? || op.DoOpen? || op.DoReprompt? {
      OpeningTells(c, op, env);
    } else if op.DoPrompt? || op.DoError? || op.DoInfo? {
      UpdatingTells(c, op, env);
    } else {
      OtherTells(c, op, env);
    }
  }

  lemma {:induction false} ApplyTells(c: Core, ops: seq<Op>, env: Env)
    requires CoreInv(c) && env.Valid()
    ensures Closings(Apply(c, ops, env).queue.routed) == Closings(c.queue.routed) + ClosingsBy(LiveSessions(c.store), ops)
    decreases |ops|
  {
    hide ApplyOne, LiveAfter, ClosingBy, Closings, QueueInv, Elected;
    if ops != [] {
      OpTells(c, ops[0], env);
      OpKeeps(c, ops[0], env);
      OpLive(c, ops[0], env);
      ApplyTells(ApplyOne(c, ops[0], env), ops[1..], env);
    }
  }

  // ---- what a step opens and closes

  function Opens(d: Daemon, input: Input, env: Env): Live {
    match input
    case KeyringInput(s, pid, msg) =>
      var cookie := KeyringCookie(msg, env);
      if cookie in d.core.store then map[] else map[cookie := Keyring]
    case PinentryInput(s, pid, msg) =>
      var cookie := ParsePinentry(msg, s, pid, env).cookie;
      if d.pinentry.OwnedByOther(cookie, pid) || cookie in d.core.store then map[] else map[cookie := Pinentry]
    case PolkitInitiate(cookie, hasIdentity, _, _, _, _) =>
      if !hasIdentity || cookie in d.core.store then map[] else map[cookie := Polkit]
    case _ => map[]
  }

  /** A terminal result that the flow's owner is entitled to report. */
  predicate Terminates(d: Daemon, id: Id, pid: Pid, word: ResultWord) {
    id != "" && IsPinentry(d.core.store, id) && !d.pinentry.OwnedByOther(id, pid) && (word.SaysSuccess? || word.SaysCancelled? || word.SaysError?)
  }

  predicate LastAttempt(q: PolkitTables, attempt: Attempting, gained: bool) {
    attempt in q.attempts && q.attempts[attempt] in q.states
    && (gained || q.states[q.attempts[attempt]].retryCount + 1 >= MAX_AUTH_RETRIES)
  }

  ghost function Closes(d: Daemon, input: Input): set<Id> {
    match input
    case RespondInput(s, id, _) =>
      if d.core.registry.Authorizes(s) && id in d.keyring then {id} else {}
    case CancelInput(s, id) =>
      if !d.core.registry.Authorizes(s) || id !in d.core.store then {}
      else if id in d.keyring || IsPinentry(d.core.store, id) then {id}
      else if !HasRequest(d.pinentry, d.core.store, id) && d.core.store[id].source == Polkit then {id}
      else {}
    case ResultInput(_, pid, id, word, _) => if Terminates(d, id, pid, word) then {id} else {}
    case DisconnectInput(s) => KeyringOwned(d.keyring, s) + PinentrySessionsOf(d, s)
    case OutcomeTimer(timer) =>
      if timer in d.pinentry.timers && IsPinentry(d.core.store, d.pinentry.timers[timer]) then {d.pinentry.timers[timer]} else {}
    case PolkitCompleted(attempt, gained) =>
      if LastAttempt(d.polkit, attempt, gained) then {d.polkit.attempts[attempt]} else {}
    case PolkitCancelAll => d.polkit.states.Keys
    case _ => {}
  }

  /** All sessions closed by one step are closed with the same result. */
  function ClosesAs(input: Input): Result {
    match input
    case RespondInput(_, _, _) => Success
    case ResultInput(_, _, _, word, _) => if word.SaysSuccess? then Success else if word.SaysError? then Error else Cancelled
    case OutcomeTimer(_) => Error
    case PolkitCompleted(_, gained) => if gained then Success else Cancelled
    case _ => Cancelled
  }

  /** `cs` closes each of `ids` once, with `result`, and nothing else. */
  ghost predicate ClosesEach(cs: seq<Closing>, ids: set<Id>, result: Result) {
    if cs == [] then ids == {}
    else cs[0].id in ids && cs[0].result == result && ClosesEach(cs[1..], ids - {cs[0].id}, result)
  }

  /** The outcome of a list of agent calls, as far as opening and closing goes. */
  ghost predicate Outcome(m: Live, ops: seq<Op>, ended: set<Id>, result: Result, begun: Live) {
    LiveAfterAll(m, ops) == (m - ended) + begun && ClosesEach(ClosingsBy(m, ops), ended, result)
  }

  lemma {:induction false} ClosingsConcat(m: Live, xs: seq<Op>, ys: seq<Op>)
    ensures ClosingsBy(m, xs + ys) == ClosingsBy(m, xs) + ClosingsBy(LiveAfterAll(m, xs), ys)
    decreases |xs|
  {
    if xs == [] {
      assert xs + ys == ys;
    } else {
      assert (xs + ys)[1..] == xs[1..] + ys;
      ClosingsConcat(LiveAfter(m, xs[0]), xs[1..], ys);
    }
  }

  lemma {:induction false} QuietCloses(m: Live, ops: seq<Op>)
    requires forall i :: 0 <= i < |ops| ==> Quiet(ops[i]) || ops[i].DoCreate? || ops[i].DoOpen?
    ensures ClosingsBy(m, ops) == []
    decreases |ops|
  {
    if ops != [] {
      QuietCloses(LiveAfter(m, ops[0]), ops[1..]);
    }
  }

  /** One call may close a session; the rest are quiet. */
  lemma OneOutcome(m: Live, op: Op, rest: seq<Op>, id: Id, result: Result)
    requires forall i :: 0 <= i < |rest| ==> Quiet(rest[i])
    requires !op.DoCreate? && !op.DoOpen?
    requires ClosingBy(m, op) == [] || ClosingBy(m, op) == [Closing(id, result)]
    ensures Outcome(m, [op] + rest, if ClosingBy(m, op) == [] then {} else {id}, result, map[])
  {
    FirstLive(m, op, rest);
    assert ([op] + rest)[1..] == rest;
    QuietCloses(LiveAfter(m, op), rest);
    assert ClosingsBy(m, [op] + rest) == ClosingBy(m, op);
    if ClosingBy(m, op) == [] {
      assert LiveAfter(m, op) == (m - {}) + map[];
    } else {
      assert LiveAfter(m, op) == (m - {id}) + map[];
      assert [Closing(id, result)][1..] == [] && {id} - {id} == {};
    }
  }

  lemma QuietOutcome(m: Live, ops: seq<Op>, result: Result)
    requires forall i :: 0 <= i < |ops| ==> Quiet(ops[i])
    ensures Outcome(m, ops, {}, result, map[])
  {
    QuietLive(m, ops);
    QuietCloses(m, ops);
    assert (m - {}) + map[] == m;
  }

  lemma IdsWithoutFirst(ids: seq<Id>)
    requires Distinct(ids) && ids != []
    ensures ids[0] in ids && Distinct(ids[1..]) && (forall id :: id in ids <==> id == ids[0] || id in ids[1..])
    ensures (set id | id in ids) - {ids[0]} == set id | id in ids[1..]
  {
    assert ids == [ids[0]] + ids[1..];
  }

  lemma {:induction false} CancellationsOutcome(m: Live, ids: seq<Id>)
    requires Distinct(ids) && forall id :: id in ids ==> id in m
    ensures ClosesEach(ClosingsBy(m, Cancellations(ids)), (set id | id in ids), Cancelled)
    decreases |ids|
  {
    if ids != [] {
      assert Cancellations(ids)[1..] == Cancellations(ids[1..]);
      IdsWithoutFirst(ids);
      CancellationsOutcome(m - {ids[0]}, ids[1..]);
      assert ClosingsBy(m, Cancellations(ids))[1..] == ClosingsBy(m - {ids[0]}, Cancellations(ids[1..]));
    }
  }

  lemma {:induction false} DisconnectionsOutcome(m: Live, ids: seq<Id>)
    requires Distinct(ids)
    ensures ClosesEach(ClosingsBy(m, Disconnections(ids)), PinentryAmong(ids, m), Cancelled)
    decreases |ids|
  {
    if ids != [] {
      var m' := LiveAfter(m, DoCloseFlow(ids[0], Cancelled, GONE));
      assert Disconnections(ids)[1..] == Disconnections(ids[1..]);
      DisconnectionsOutcome(m', ids[1..]);
      AmongNext(ids, m);
      var rest := ClosingsBy(m', Disconnections(ids[1..]));
      if ids[0] in m && m[ids[0]] == Pinentry {
        assert ClosingsBy(m, Disconnections(ids)) == [Closing(ids[0], Cancelled)] + rest;
      } else {
        assert PinentryAmong(ids, m) - {ids[0]} == PinentryAmong(ids, m);
        assert ClosingsBy(m, Disconnections(ids)) == [] + rest == rest;
      }
    }
  }

  lemma AmongNext(ids: seq<Id>, m: Live)
    requires Distinct(ids) && ids != []
    ensures var m' := LiveAfter(m, DoCloseFlow(ids[0], Cancelled, GONE));
            PinentryAmong(ids[1..], m') == PinentryAmong(ids, m) - {ids[0]}
    ensures ids[0] in PinentryAmong(ids, m) <==> ids[0] in m && m[ids[0]] == Pinentry
  {
    IdsWithoutFirst(ids);
  }

  ghost function PinentryAmong(ids: seq<Id>, m: Live): set<Id> {
    set id | id in ids && id in m && m[id] == Pinentry
  }

  lemma {:induction false} ClosesMore(xs: seq<Closing>, ys: seq<Closing>, a: set<Id>, b: set<Id>, result: Result)
    requires ClosesEach(xs, a, result) && ClosesEach(ys, b, result) && a !! b
    ensures ClosesEach(xs + ys, a + b, result)
    decreases |xs|
  {
    if xs == [] {
      assert xs + ys == ys && a + b == b;
    } else {
      ClosesMore(xs[1..], ys, a - {xs[0].id}, b, result);
      assert (xs + ys)[1..] == xs[1..] + ys;
      assert (a + b) - {xs[0].id} == (a - {xs[0].id}) + b;
    }
  }

  lemma QuietPrefix(m: Live, xs: seq<Op>, ys: seq<Op>)
    requires forall i :: 0 <= i < |xs| ==> Quiet(xs[i])
    ensures ClosingsBy(m, xs + ys) == ClosingsBy(m, ys) && LiveAfterAll(m, xs + ys) == LiveAfterAll(m, ys)
  {
    ClosingsConcat(m, xs, ys);
    LiveAfterConcat(m, xs, ys);
    QuietCloses(m, xs);
    QuietLive(m, xs);
  }

  lemma QuietSuffix(m: Live, xs: seq<Op>, ys: seq<Op>)
    requires forall i :: 0 <= i < |ys| ==> Quiet(ys[i])
    ensures ClosingsBy(m, xs + ys) == ClosingsBy(m, xs)
  {
    ClosingsConcat(m, xs, ys);
    QuietCloses(LiveAfterAll(m, xs), ys);
  }

  lemma DisconnectCloses(m: Live, s: Socket, kops: seq<Op>, pops: seq<Op>)
    ensures ClosingsBy(m, [DoUnsubscribe(s), DoRemoveProvider(s), DoRemoveWaiter(s)] + kops + pops + [DoEnsure])
         == ClosingsBy(m, kops) + ClosingsBy(LiveAfterAll(m, kops), pops)
  {
    var front := [DoUnsubscribe(s), DoRemoveProvider(s), DoRemoveWaiter(s)];
    QuietSuffix(m, front + kops + pops, [DoEnsure]);
    assert front + kops + pops == front + (kops + pops);
    QuietPrefix(m, front, kops + pops);
    ClosingsConcat(m, kops, pops);
  }

  lemma KeyringCleanupOutcome(t: KeyringTable, m: Live, s: Socket, env: Env)
    requires Enumerates(env.idOrder(t.Keys), t.Keys) && KeyringInv(t, m)
    ensures ClosesEach(ClosingsBy(m, KeyringCleanup(t, s, env).1), KeyringOwned(t, s), Cancelled)
  {
    var ids := Only(env.idOrder(t.Keys), KeyringOwned(t, s));
    OnlyElements(env.idOrder(t.Keys), KeyringOwned(t, s));
    OnlyDistinct(env.idOrder(t.Keys), KeyringOwned(t, s));
    CancellationsOutcome(m, ids);
    assert (set id | id in ids) == KeyringOwned(t, s);
  }

  lemma PinentryCleanupOutcome(d: Daemon, m1: Live, s: Socket, env: Env)
    requires Enumerates(env.idOrder(d.pinentry.pending.Keys), d.pinentry.pending.Keys)
    requires forall id :: id in m1 ==> id in d.core.store && m1[id] == d.core.store[id].source
    requires forall id :: id in PinentrySessionsOf(d, s) ==> id in m1
    ensures ClosesEach(ClosingsBy(m1, PinentryCleanup(d.pinentry, s, env).1), PinentrySessionsOf(d, s), Cancelled)
  {
    var ids := Only(env.idOrder(d.pinentry.pending.Keys), PinentryOwned(d.pinentry, s));
    CleanupIds(d.pinentry, s, env);
    DisconnectionsOutcome(m1, ids);
    assert PinentryAmong(ids, m1) == PinentrySessionsOf(d, s);
  }

  lemma TwoPartOutcome(m: Live, ops: seq<Op>, xs: seq<Closing>, ys: seq<Closing>, a: set<Id>, b: set<Id>, result: Result)
    requires LiveAfterAll(m, ops) == m - a - b && ClosingsBy(m, ops) == xs + ys
    requires ClosesEach(xs, a, result) && ClosesEach(ys, b, result) && a !! b
    ensures Outcome(m, ops, a + b, result, map[])
  {
    ClosesMore(xs, ys, a, b, result);
    assert m - a - b == (m - (a + b)) + map[];
  }

  lemma DisconnectOutcome(d: Daemon, s: Socket, env: Env)
    requires KeyringInv(d.keyring, LiveSessions(d.core.store)) && PinentryInv(d.pinentry, LiveSessions(d.core.store)) && WalksTables(d, env)
    ensures Outcome(LiveSessions(d.core.store), Disconnect(d, s, env).ops, Closes(d, DisconnectInput(s)), Cancelled, map[])
  {
    hide LiveAfter, FlowInv, LiveAfterAll, ClosesEach;
    var m := LiveSessions(d.core.store);
    var kops, pops := KeyringCleanup(d.keyring, s, env).1, PinentryCleanup(d.pinentry, s, env).1;
    var m1 := m - KeyringOwned(d.keyring, s);
    DisconnectLive(d, m, s, env);
    DisconnectCloses(m, s, kops, pops);
    KeyringCleanupLive(d.keyring, m, s, env);
    KeyringCleanupOutcome(d.keyring, m, s, env);
    PinentryCleanupOutcome(d, m1, s, env);
    TwoPartOutcome(m, Disconnect(d, s, env).ops, ClosingsBy(m, kops), ClosingsBy(m1, pops),
                   KeyringOwned(d.keyring, s), PinentrySessionsOf(d, s), Cancelled);
  }

  lemma FinishAuthCloses(q: PolkitTables, m: Live, id: Id)
    requires id in q.states && id in m && q.states[id].inProgress
    ensures var s := q.states[id];
            ClosingsBy(m, q.FinishAuth(id).1) ==
            if s.gainedAuth || s.cancelled || s.retryCount + 1 >= MAX_AUTH_RETRIES
            then [Closing(id, if s.gainedAuth then Success else Cancelled)] else []
  {
    var s, ops := q.states[id], q.FinishAuth(id).1;
    if |ops| == 1 {
      assert ops == [ops[0]] + [];
      ClosingsConcat(m, [ops[0]], []);
    } else if |ops| == 2 {
      assert ops == [ops[0]] + [ops[1]];
      ClosingsConcat(m, [ops[0]], [ops[1]]);
      assert LiveAfterAll(m, [ops[0]]) == m;
    }
  }

  lemma {:induction false} CancelEachOutcome(q: PolkitTables, m: Live, ids: seq<Id>)
    requires PolkitInv(q, m) && Distinct(ids) && forall id :: id in ids ==> id in q.states
    ensures ClosesEach(ClosingsBy(m, q.CancelEach(ids).1), (set id | id in ids), Cancelled)
    decreases |ids|
  {
    hide PolkitTables.FinishAuth;
    if ids != [] {
      var id := ids[0];
      CancelPendingKeeps(q, m, id);
      var (t, ops) := q.CancelPending(id);
      FinishAuthCloses(q.(states := q.states[id := q.states[id].(cancelled := true)]), m, id);
      CancelEachOutcome(t, m - {id}, ids[1..]);
      ClosingsConcat(m, ops, t.CancelEach(ids[1..]).1);
      assert ids == [id] + ids[1..] && id !in ids[1..];
      assert (set i | i in ids) - {id} == set i | i in ids[1..];
      assert ClosingsBy(m, q.CancelEach(ids).1)[1..] == ClosingsBy(m - {id}, t.CancelEach(ids[1..]).1);
    }
  }

  lemma PlainOutcome(m: Live, ops: seq<Op>, id: Id, over: bool, result: Result)
    requires LiveAfterAll(m, ops) == if over then m - {id} else m
    requires ClosingsBy(m, ops) == if over then [Closing(id, result)] else []
    ensures Outcome(m, ops, if over then {id} else {}, result, map[])
  {
    assert [Closing(id, result)][1..] == [] && {id} - {id} == {};
    assert m == (m - {}) + map[] && m - {id} == (m - {id}) + map[];
  }

  lemma FinishAuthOutcome(q: PolkitTables, m: Live, id: Id, told: seq<Op>, result: Result)
    requires id in q.states && id in m && q.states[id].inProgress
    requires forall i :: 0 <= i < |told| ==> Quiet(told[i])
    requires result == if q.states[id].gainedAuth then Success else Cancelled
    ensures var s := q.states[id];
            var over := s.gainedAuth || s.cancelled || s.retryCount + 1 >= MAX_AUTH_RETRIES;
            Outcome(m, told + q.FinishAuth(id).1, if over then {id} else {}, result, map[])
  {
    FinishAuthCloses(q, m, id);
    FinishAuthLive(q, m, id);
    QuietPrefix(m, told, q.FinishAuth(id).1);
    var s := q.states[id];
    PlainOutcome(m, told + q.FinishAuth(id).1, id, s.gainedAuth || s.cancelled || s.retryCount + 1 >= MAX_AUTH_RETRIES, result);
  }

  lemma CompletedOutcome(q: PolkitTables, m: Live, attempt: Attempting, gained: bool)
    requires PolkitInv(q, m)
    ensures Outcome(m, q.OnCompleted(attempt, gained).1, if LastAttempt(q, attempt, gained) then {q.attempts[attempt]} else {},
                    if gained then Success else Cancelled, map[])
  {
    if attempt in q.attempts {
      var id := q.attempts[attempt];
      var s := q.states[id].(gainedAuth := gained, errorText := if gained then q.states[id].errorText else "Authentication failed");
      var q1 := q.(states := q.states[id := s]);
      FinishAuthOutcome(q1, m, id, if gained then [] else [DoError(id, "Authentication failed")], if gained then Success else Cancelled);
    } else {
      QuietOutcome(m, [], if gained then Success else Cancelled);
    }
  }

  lemma FinishAuthLive(q: PolkitTables, m: Live, id: Id)
    requires id in q.states && q.states[id].inProgress
    ensures var s := q.states[id];
            LiveAfterAll(m, q.FinishAuth(id).1) ==
            if s.gainedAuth || s.cancelled || s.retryCount + 1 >= MAX_AUTH_RETRIES then m - {id} else m
  {
    var ops := q.FinishAuth(id).1;
    if |ops| == 1 {
      assert ops == [ops[0]] + [];
      FirstLive(m, ops[0], []);
    } else if |ops| == 2 {
      assert ops == [ops[0]] + [ops[1]] && [ops[1]] == [ops[1]] + [];
      LiveAfterConcat(m, [ops[0]], [ops[1]]);
      FirstLive(m, ops[1], []);
      QuietLive(m, [ops[0]]);
    }
  }

  lemma CancelFlowOutcome(d: Daemon, s: Socket, id: Id)
    requires KeyringInv(d.keyring, LiveSessions(d.core.store))
    requires d.core.registry.Authorizes(s) && (id in d.keyring || HasRequest(d.pinentry, d.core.store, id))
    ensures Outcome(LiveSessions(d.core.store), Cancel(d, s, id).ops, Closes(d, CancelInput(s, id)), Cancelled, map[])
  {
    hide KeyringInv, PinTables.Forget, ClosesEach;
    var m, ops := LiveSessions(d.core.store), Cancel(d, s, id).ops;
    assert ops == [ops[0]] + ops[1..];
    OneOutcome(m, ops[0], ops[1..], id, Cancelled);
  }

  lemma CancelPolkitOutcome(d: Daemon, s: Socket, id: Id)
    requires PolkitInv(d.polkit, LiveSessions(d.core.store)) && d.core.registry.Authorizes(s)
    requires id !in d.keyring && !HasRequest(d.pinentry, d.core.store, id) && id in d.core.store && d.core.store[id].source == Polkit
    ensures Outcome(LiveSessions(d.core.store), Cancel(d, s, id).ops, Closes(d, CancelInput(s, id)), Cancelled, map[])
  {
    hide Outcome;
    assert d.polkit.CancelPending(id).1 == [DoComplete(id, false)];
    OneOutcome(LiveSessions(d.core.store), DoComplete(id, false), [Say(s, Ok(None))], id, Cancelled);
  }

  lemma CancelOutcome(d: Daemon, s: Socket, id: Id)
    requires TablesInv(d.keyring, d.pinentry, d.polkit, LiveSessions(d.core.store))
    ensures Outcome(LiveSessions(d.core.store), Cancel(d, s, id).ops, Closes(d, CancelInput(s, id)), Cancelled, map[])
  {
    if !d.core.registry.Authorizes(s) {
      QuietOutcome(LiveSessions(d.core.store), Cancel(d, s, id).ops, Cancelled);
    } else if id in d.keyring || HasRequest(d.pinentry, d.core.store, id) {
      CancelFlowOutcome(d, s, id);
    } else if id in d.core.store && d.core.store[id].source == Polkit {
      CancelPolkitOutcome(d, s, id);
    } else {
      QuietOutcome(LiveSessions(d.core.store), Cancel(d, s, id).ops, Cancelled);
    }
  }

  lemma RespondOutcome(d: Daemon, s: Socket, id: Id, response: string)
    requires KeyringInv(d.keyring, LiveSessions(d.core.store))
    ensures Outcome(LiveSessions(d.core.store), Respond(d, s, id, response).ops, Closes(d, RespondInput(s, id, response)), Success, map[])
  {
    hide LiveSessions, Outcome, PinTables.Answered, PolkitTables.Submit, Registry.Authorizes;
    var m, ops := LiveSessions(d.core.store), Respond(d, s, id, response).ops;
    if d.core.registry.Authorizes(s) && id in d.keyring {
      assert ops == [ops[0]] + ops[1..];
      OneOutcome(m, ops[0], ops[1..], id, Success);
    } else {
      QuietOutcome(m, ops, Success);
    }
  }

  lemma ResultOutcome(d: Daemon, s: Socket, pid: Pid, id: Id, word: ResultWord, error: string, env: Env)
    ensures var input := ResultInput(s, pid, id, word, error);
            Outcome(LiveSessions(d.core.store), EffectOf(d, input, env).ops, Closes(d, input), ClosesAs(input), map[])
  {
    var m, input := LiveSessions(d.core.store), ResultInput(s, pid, id, word, error);
    var (_, ops, reply) := PinentryHandleResult(d.pinentry, d.core.store, id, pid, word, error);
    if Terminates(d, id, pid, word) {
      OneOutcome(m, ops[0], [Say(s, reply)], id, ClosesAs(input));
    } else {
      QuietOutcome(m, ops + [Say(s, reply)], ClosesAs(input));
    }
  }

  lemma KeyringOutcome(d: Daemon, s: Socket, pid: Pid, msg: KeyringMessage, env: Env)
    requires KeyringInv(d.keyring, LiveSessions(d.core.store))
    ensures var input := KeyringInput(s, pid, msg);
            Outcome(LiveSessions(d.core.store), EffectOf(d, input, env).ops, {}, Cancelled, Opens(d, input, env))
  {
    hide KeyringInv, Disconnect;
    var m := LiveSessions(d.core.store);
    KeyringRequestLive(d.keyring, d.core.store, msg, s, pid, env);
    QuietCloses(m, KeyringHandleRequest(d.keyring, d.core.store, msg, s, pid, env).1);
    assert m == (m - {}) + map[];
  }

  lemma PinentryRequestCloses(t: PinTables, store: map<Id, SessionData>, msg: PinentryMessage, s: Socket, pid: Pid, env: Env)
    ensures ClosingsBy(LiveSessions(store), PinentryHandleRequest(t, store, msg, s, pid, env).1) == []
  {
    QuietCloses(LiveSessions(store), PinentryHandleRequest(t, store, msg, s, pid, env).1);
  }

  lemma PinentryOutcome(d: Daemon, s: Socket, pid: Pid, msg: PinentryMessage, env: Env)
    ensures var input := PinentryInput(s, pid, msg);
            Outcome(LiveSessions(d.core.store), EffectOf(d, input, env).ops, {}, Cancelled, Opens(d, input, env))
  {
    hide PinentryHandleRequest;
    var m := LiveSessions(d.core.store);
    PinentryRequestLive(d.pinentry, d.core.store, msg, s, pid, env);
    PinentryRequestCloses(d.pinentry, d.core.store, msg, s, pid, env);
    assert m == (m - {}) + map[];
  }

  lemma InitiateOutcome(d: Daemon, input: Input, env: Env)
    requires input.PolkitInitiate? && PolkitInv(d.polkit, LiveSessions(d.core.store))
    ensures Outcome(LiveSessions(d.core.store), EffectOf(d, input, env).ops, {}, Cancelled, Opens(d, input, env))
  {
    hide PolkitInv, AttemptInv, PolkitTables.Begin;
    var m, context := LiveSessions(d.core.store), PolkitContext(input.message, input.actionId, input.user, env);
    InitiateKeeps(d.polkit, d.core.store, input.cookie, input.hasIdentity, input.result, context);
    QuietCloses(m, d.polkit.Initiate(d.core.store, input.cookie, input.hasIdentity, input.result, context).1);
    assert m == (m - {}) + map[];
  }

  lemma TimerOutcome(d: Daemon, timer: nat, env: Env)
    ensures var input := OutcomeTimer(timer);
            Outcome(LiveSessions(d.core.store), EffectOf(d, input, env).ops, Closes(d, input), Error, map[])
  {
    var m, ops := LiveSessions(d.core.store), EffectOf(d, OutcomeTimer(timer), env).ops;
    if timer in d.pinentry.timers {
      assert ops == [ops[0]] + [];
      OneOutcome(m, ops[0], [], d.pinentry.timers[timer], Error);
    } else {
      QuietOutcome(m, ops, Error);
    }
  }

  lemma EffectOutcome(d: Daemon, input: Input, env: Env)
    requires env.Valid() && TablesInv(d.keyring, d.pinentry, d.polkit, LiveSessions(d.core.store))
    ensures Outcome(LiveSessions(d.core.store), EffectOf(d, input, env).ops, Closes(d, input), ClosesAs(input), Opens(d, input, env))
  {
    hide Outcome, Respond, Daemons.Cancel, Disconnect, PinentryHandleRequest, PinentryHandleResult, KeyringHandleRequest, PolkitContext, LiveSessions, KeyringInv, PinentryInv, PolkitInv;
    var m, ops := LiveSessions(d.core.store), EffectOf(d, input, env).ops;
    match input
    case KeyringInput(s, pid, msg) => KeyringOutcome(d, s, pid, msg, env);
    case PinentryInput(s, pid, msg) => PinentryOutcome(d, s, pid, msg, env);
    case PolkitInitiate(_, _, _, _, _, _) => InitiateOutcome(d, input, env);
    case RespondInput(s, id, response) => RespondOutcome(d, s, id, response);
    case CancelInput(s, id) => CancelOutcome(d, s, id);
    case ResultInput(s, pid, id, word, error) => ResultOutcome(d, s, pid, id, word, error, env);
    case DisconnectInput(s) =>
      ValidWalks(d, env);
      DisconnectOutcome(d, s, env);
    case OutcomeTimer(timer) => TimerOutcome(d, timer, env);
    case PolkitCompleted(attempt, gained) => CompletedOutcome(d.polkit, m, attempt, gained);
    case PolkitCancelAll => CancelAllOutcome(d.polkit, m, env);
    case _ => QuietOutcome(m, ops, Cancelled);
  }

  lemma CancelAllOutcome(q: PolkitTables, m: Live, env: Env)
    requires env.Valid() && PolkitInv(q, m)
    ensures Outcome(m, q.CancelEach(env.idOrder(q.states.Keys)).1, q.states.Keys, Cancelled, map[])
  {
    hide PolkitInv;
    var ids := env.idOrder(q.states.Keys);
    assert Enumerates(ids, q.states.Keys);
    CancelEachOutcome(q, m, ids);
    CancelEachKeeps(q, m, ids);
    assert (set id | id in ids) == q.states.Keys && (set id | id in ids && id in q.states) == q.states.Keys;
    assert m - q.states.Keys == (m - q.states.Keys) + map[];
  }

  /** A step opens the sessions `Opens` says and closes those `Closes` says, each with one closed event
      carrying the result `ClosesAs` says; every other session stays live under its source. */
  lemma StepOpensAndCloses(d: Daemon, input: Input, env: Env)
    requires env.Valid() && DaemonInv(d)
    ensures var d' := Handle(d, input, env);
            && LiveSessions(d'.core.store) == (LiveSessions(d.core.store) - Closes(d, input)) + Opens(d, input, env)
            && Closings(d.core.queue.routed) <= Closings(d'.core.queue.routed)
            && ClosesEach(Closings(d'.core.queue.routed)[|Closings(d.core.queue.routed)|..], Closes(d, input), ClosesAs(input))
  {
    var e := EffectOf(d, input, env);
    EffectOutcome(d, input, env);
    ApplyLive(d.core, e.ops, env);
    ApplyTells(d.core, e.ops, env);
  }
}
