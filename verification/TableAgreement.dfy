/** Three managers keep their own tables about sessions that live in one store; here is how far they agree. */
module TableAgreement {
  import opened Base
  import opened Sessions
  import opened EventQueues
  import opened Environments
  import opened ProviderRegistries
  import opened ProviderLaunchers
  import opened AgentCore
  import opened CoreInvariants
  import opened KeyringManagers
  import opened PinentryManagers
  import opened PolkitListeners
  import opened Daemons

  /** Which sessions are live, and who asked for them. */
  type Live = map<Id, Source>

  function LiveSessions(store: map<Id, SessionData>): Live {
    map id | id in store :: store[id].source
  }

  /** What one agent call does to the set of live sessions. */
  function LiveAfter(m: Live, op: Op): Live {
    match op
    case DoCreate(id, source, _) => if id in m then m else m[id := source]
    case DoOpen(id, source, _, _, _) => if id in m then m else m[id := source]
    case DoClose(id, _) => m - {id}
    case DoComplete(id, _) => m - {id}
    case DoCloseFlow(id, _, _) => if id in m && m[id] == Pinentry then m - {id} else m
    case _ => m
  }

  function LiveAfterAll(m: Live, ops: seq<Op>): Live
    decreases |ops|
  {
    if ops == [] then m else LiveAfterAll(LiveAfter(m, ops[0]), ops[1..])
  }

  lemma RouteKeepsStore(c: Core, e: Event, env: Env)
    ensures c.Route(e, env).store == c.store && c.Route(e, env).registry == c.registry
  {
    RouteChanges(c, e, env);
  }

  lemma UpdateLive(c: Core, d: SessionData, env: Env)
    requires d.id in c.store && d.source == c.store[d.id].source
    ensures LiveSessions(c.Update(d, env).store) == LiveSessions(c.store)
  {
    RouteKeepsStore(c.(store := c.store[d.id := d]), d.UpdatedEvent(), env);
  }

  lemma CreateLive(c: Core, id: Id, source: Source, context: Context, env: Env)
    ensures id in c.store ==> c.Create(id, source, context, env) == c
    ensures id !in c.store ==> c.Create(id, source, context, env).store == c.store[id := NewSession(id, source, context)]
  {
    if id !in c.store {
      var d := NewSession(id, source, context);
      RouteKeepsStore(c.(store := c.store[id := d]), d.CreatedEvent(), env);
    }
  }

  lemma CloseLive(c: Core, id: Id, result: Result, success: bool, env: Env)
    ensures c.Close(id, result, env).store == c.store - {id}
    ensures c.Complete(id, success, env).store == c.store - {id}
  {
    if id in c.store {
      var c1 := c.(store := c.store - {id});
      RouteKeepsStore(c1.RecomputeIfIdle(env), c.store[id].Close(result).ClosedEvent(), env);
      RouteKeepsStore(c1, c.store[id].Close(if success then Success else Cancelled).ClosedEvent(), env);
    }
  }

  lemma OpenLive(c: Core, op: Op, env: Env)
    requires StoreInv(c.store) && op.DoOpen?
    ensures LiveSessions(ApplyOne(c, op, env).store) == LiveAfter(LiveSessions(c.store), op)
  {
    hide Core.Create, Core.Route;
    if op.id !in c.store {
      CreateLive(c, op.id, op.source, op.context, env);
      var c1 := c.Create(op.id, op.source, op.context, env);
      assert LiveSessions(c1.store) == LiveSessions(c.store)[op.id := op.source];
      UpdateLive(c1, c1.store[op.id].SetPrompt(op.prompt, false, op.clearError), env);
    }
  }

  lemma RepromptLive(c: Core, op: Op, env: Env)
    requires StoreInv(c.store) && op.DoReprompt?
    ensures LiveSessions(ApplyOne(c, op, env).store) == LiveSessions(c.store)
  {
    var c1 := c.UpdatePinentryRetry(op.id, op.cur, op.max);
    assert LiveSessions(c1.store) == LiveSessions(c.store);
    if op.id in c1.store {
      UpdateLive(c1, c1.store[op.id].SetPrompt(op.prompt, false, false), env);
    }
  }

  lemma CloseFlowLive(c: Core, id: Id, result: Result, error: string, env: Env)
    requires StoreInv(c.store)
    ensures c.CloseFlow(id, result, error, env).store.Keys == if IsPinentry(c.store, id) then c.store.Keys - {id} else c.store.Keys
    ensures forall i :: i in c.CloseFlow(id, result, error, env).store ==> c.CloseFlow(id, result, error, env).store[i] == c.store[i]
  {
    if IsPinentry(c.store, id) {
      if error == "" {
        CloseLive(c, id, result, true, env);
      } else {
        var d := c.store[id].SetError(error);
        RouteKeepsStore(c.(store := c.store[d.id := d]), d.UpdatedEvent(), env);
        CloseLive(c.Update(d, env), id, result, true, env);
      }
    }
  }

  lemma UpdateOpLive(c: Core, op: Op, env: Env)
    requires StoreInv(c.store) && (op.DoPrompt? || op.DoError? || op.DoInfo?)
    ensures LiveSessions(ApplyOne(c, op, env).store) == LiveSessions(c.store)
  {
    if op.id in c.store {
      var d := c.store[op.id];
      match op
      case DoPrompt(id, prompt, echo) => UpdateLive(c, d.SetPrompt(prompt, echo, true), env);
      case DoError(id, error) => UpdateLive(c, d.SetError(error), env);
      case DoInfo(id, info) => UpdateLive(c, d.SetInfo(info), env);
    }
  }

  lemma EndOpLive(c: Core, op: Op, env: Env)
    requires StoreInv(c.store) && (op.DoClose? || op.DoComplete? || op.DoCreate?)
    ensures LiveSessions(ApplyOne(c, op, env).store) == LiveAfter(LiveSessions(c.store), op)
  {
    hide Core.Route, Core.Announce, Core.Subscribe;
    match op
    case DoClose(id, result) => CloseLive(c, id, result, true, env);
    case DoComplete(id, success) => CloseLive(c, id, Success, success, env);
    case DoCreate(id, source, context) => CreateLive(c, id, source, context, env);
  }

  /** Agent calls that leave the store alone. */
  ghost predicate LeavesStore(op: Op) {
    op.Say? || op.Answer? || op.DoSubscribe? || op.DoNext? || op.DoRegister? || op.DoHeartbeat? || op.DoUnregister?
    || op.DoRemoveProvider? || op.DoUnsubscribe? || op.DoRemoveWaiter? || op.DoPrune? || op.DoEnsure?
  }

  lemma ProviderOpLive(c: Core, op: Op, env: Env)
    requires op.DoRegister? || op.DoHeartbeat? || op.DoUnregister? || op.DoRemoveProvider? || op.DoPrune? || op.DoEnsure?
    ensures ApplyOne(c, op, env).store == c.store
  {
    hide Registry.Recompute, Registry.Register, Core.Inbox, Registry.Heartbeat, Registry.HasActive, Launcher.EnsureFallback;
  }

  lemma OtherOpLive(c: Core, op: Op, env: Env)
    requires LeavesStore(op)
    ensures ApplyOne(c, op, env).store == c.store
  {
    if op.DoRegister? || op.DoHeartbeat? || op.DoUnregister? || op.DoRemoveProvider? || op.DoPrune? || op.DoEnsure? {
      ProviderOpLive(c, op, env);
    } else {
      hide Core.Inbox, Core.SendEach;
    }
  }

  lemma OpLive(c: Core, op: Op, env: Env)
    requires StoreInv(c.store)
    ensures LiveSessions(ApplyOne(c, op, env).store) == LiveAfter(LiveSessions(c.store), op)
  {
    if op.DoOpen? {
      OpenLive(c, op, env);
    } else if op.DoReprompt? {
      RepromptLive(c, op, env);
    } else if op.DoCloseFlow? {
      CloseFlowLive(c, op.id, op.result, op.error, env);
    } else if op.DoPrompt? || op.DoError? || op.DoInfo? {
      UpdateOpLive(c, op, env);
    } else if op.DoClose? || op.DoComplete? || op.DoCreate? {
      EndOpLive(c, op, env);
    } else {
      OtherOpLive(c, op, env);
    }
  }

  lemma {:induction false} ApplyLive(c: Core, ops: seq<Op>, env: Env)
    requires env.Valid() && CoreInv(c)
    ensures LiveSessions(Apply(c, ops, env).store) == LiveAfterAll(LiveSessions(c.store), ops)
    decreases |ops|
  {
    if ops != [] {
      OpLive(c, ops[0], env);
      OpKeeps(c, ops[0], env);
      ApplyLive(ApplyOne(c, ops[0], env), ops[1..], env);
    }
  }

  lemma {:induction false} LiveAfterConcat(m: Live, xs: seq<Op>, ys: seq<Op>)
    ensures LiveAfterAll(m, xs + ys) == LiveAfterAll(LiveAfterAll(m, xs), ys)
    decreases |xs|
  {
    if xs == [] {
      assert xs + ys == ys;
    } else {
      assert (xs + ys)[1..] == xs[1..] + ys;
      LiveAfterConcat(LiveAfter(m, xs[0]), xs[1..], ys);
    }
  }

  /** Agent calls that neither open nor close a session. */
  ghost predicate Quiet(op: Op) {
    LeavesStore(op) || op.DoReprompt? || op.DoPrompt? || op.DoError? || op.DoInfo?
  }

  lemma {:induction false} QuietLive(m: Live, ops: seq<Op>)
    requires forall i :: 0 <= i < |ops| ==> Quiet(ops[i])
    ensures LiveAfterAll(m, ops) == m
    decreases |ops|
  {
    if ops != [] {
      QuietLive(m, ops[1..]);
    }
  }

  lemma FirstLive(m: Live, op: Op, rest: seq<Op>)
    requires forall i :: 0 <= i < |rest| ==> Quiet(rest[i])
    ensures LiveAfterAll(m, [op] + rest) == LiveAfter(m, op)
  {
    assert ([op] + rest)[1..] == rest;
    QuietLive(LiveAfter(m, op), rest);
  }

  // ---- what each manager's table has to do with the live sessions

  ghost predicate KeyringInv(t: KeyringTable, m: Live) {
    forall id :: id in t ==> id in m && m[id] == Keyring && t[id].cookie == id
  }

  /** Pending and awaiting exclude each other, both are owned, and the armed timers are exactly the awaiting flows. */
  ghost predicate FlowInv(p: PinTables) {
    && p.pending.Keys !! p.awaiting.Keys
    && (forall id :: id in p.pending ==> id in p.owners && p.pending[id].cookie == id && p.pending[id].pid == p.owners[id])
    && (forall id :: id in p.awaiting ==> id in p.owners)
    && (forall id :: id in p.awaiting ==> p.awaiting[id].timer in p.timers && p.timers[p.awaiting[id].timer] == id)
    && (forall t :: t in p.timers ==> t < p.nextTimer && p.timers[t] in p.awaiting && p.awaiting[p.timers[t]].timer == t)
  }

  /** Every live pinentry session has an owner, and is pending, awaiting its outcome, or reported for retry. */
  ghost predicate PinentryInv(p: PinTables, m: Live) {
    && FlowInv(p)
    && forall id :: id in m && m[id] == Pinentry ==>
         id in p.owners && (id in p.pending || id in p.awaiting || id in p.reported)
  }

  /** The two polkit tables are inverse to each other, and every entry is a request still in progress. */
  ghost predicate AttemptInv(q: PolkitTables) {
    && (forall id :: id in q.states ==>
          var s := q.states[id];
          && s.cookie == id && s.inProgress && !s.gainedAuth && !s.cancelled && s.retryCount < MAX_AUTH_RETRIES
          && s.attempt in q.attempts && q.attempts[s.attempt] == id)
    && (forall a :: a in q.attempts ==> a < q.nextAttempt && q.attempts[a] in q.states && q.states[q.attempts[a]].attempt == a)
  }

  ghost predicate PolkitInv(q: PolkitTables, m: Live) {
    AttemptInv(q) && forall id :: id in q.states <==> id in m && m[id] == Polkit
  }

  ghost predicate TablesInv(k: KeyringTable, p: PinTables, q: PolkitTables, m: Live) {
    KeyringInv(k, m) && PinentryInv(p, m) && PolkitInv(q, m)
  }

  /** A manager whose own sessions are untouched keeps its side of the agreement. */
  lemma Frames(k: KeyringTable, p: PinTables, q: PolkitTables, m: Live, m': Live)
    ensures KeyringInv(k, m) && (forall id :: id in k && id in m ==> id in m' && m'[id] == m[id]) ==> KeyringInv(k, m')
    ensures PinentryInv(p, m) && (forall id :: id in m' && m'[id] == Pinentry ==> id in m && m[id] == Pinentry) ==> PinentryInv(p, m')
    ensures PolkitInv(q, m) && (forall id :: (id in m' && m'[id] == Polkit) == (id in m && m[id] == Polkit)) ==> PolkitInv(q, m')
  {
  }

  // ---- keyring steps

  lemma {:induction false} CancellationsClose(m: Live, ids: seq<Id>)
    ensures LiveAfterAll(m, Cancellations(ids)) == m - set id | id in ids
    decreases |ids|
  {
    if ids != [] {
      assert Cancellations(ids)[1..] == Cancellations(ids[1..]);
      CancellationsClose(m - {ids[0]}, ids[1..]);
      assert ids == [ids[0]] + ids[1..];
    }
  }

  lemma {:induction false} OnlyElements<T>(xs: seq<T>, keep: set<T>)
    ensures forall x :: x in Only(xs, keep) <==> x in xs && x in keep
  {
    if xs != [] {
      OnlyElements(xs[1..], keep);
      assert xs == [xs[0]] + xs[1..];
    }
  }

  lemma {:induction false} OnlyDistinct<T>(xs: seq<T>, keep: set<T>)
    requires Distinct(xs)
    ensures Distinct(Only(xs, keep))
  {
    if xs != [] {
      OnlyDistinct(xs[1..], keep);
      OnlyElements(xs[1..], keep);
    }
  }

  /** The clean-up closes exactly the sessions whose request is pending on the socket. */
  lemma KeyringCleanupLive(t: KeyringTable, m: Live, s: Socket, env: Env)
    requires Enumerates(env.idOrder(t.Keys), t.Keys) && KeyringInv(t, m)
    ensures var (t', ops) := KeyringCleanup(t, s, env);
            LiveAfterAll(m, ops) == m - KeyringOwned(t, s) && KeyringInv(t', LiveAfterAll(m, ops))
  {
    var ids := Only(env.idOrder(t.Keys), KeyringOwned(t, s));
    OnlyElements(env.idOrder(t.Keys), KeyringOwned(t, s));
    CancellationsClose(m, ids);
    assert (set id | id in ids) == KeyringOwned(t, s);
  }

  // ---- pinentry steps

  lemma ForgetKeeps(p: PinTables, id: Id)
    requires FlowInv(p)
    ensures FlowInv(p.Forget(id))
  {
  }

  lemma ForgetFlow(p: PinTables, m: Live, id: Id, result: Result, error: string)
    requires PinentryInv(p, m)
    ensures PinentryInv(p.Forget(id), LiveAfter(m, DoCloseFlow(id, result, error)))
  {
    ForgetKeeps(p, id);
  }

  lemma PendedKeeps(p: PinTables, r: PinentryRequest)
    requires FlowInv(p) && !p.OwnedByOther(r.cookie, r.pid)
    ensures FlowInv(p.Pended(r))
  {
    var t := p.Claimed(r).ResolveRetry(r).0;
    ClaimResolved(p, r);
    hide PinTables.ResolveRetry;
    assert FlowInv(t);
    CleanupFlow(t, r.cookie);
    PendFlow(t.CleanupAwaiting(r.cookie), r);
  }

  lemma ClaimResolved(p: PinTables, r: PinentryRequest)
    ensures var t := p.Claimed(r).ResolveRetry(r).0; t == p.Claimed(r).(retryInfo := t.retryInfo)
  {
  }

  lemma CleanupFlow(p: PinTables, id: Id)
    requires FlowInv(p)
    ensures FlowInv(p.CleanupAwaiting(id)) && id !in p.CleanupAwaiting(id).awaiting
  {
  }

  lemma PendFlow(p: PinTables, r: PinentryRequest)
    requires FlowInv(p) && r.cookie !in p.awaiting && r.cookie in p.owners && p.owners[r.cookie] == r.pid
    ensures FlowInv(p.(pending := p.pending[r.cookie := r], reported := p.reported - {r.cookie}))
  {
  }

  lemma AnsweredKeeps(p: PinTables, id: Id)
    requires FlowInv(p) && id in p.pending
    ensures FlowInv(p.Answered(id))
  {
    assert p.nextTimer !in p.timers;
  }

  lemma {:induction false} ForgetAllFlows(p: PinTables, m: Live, ids: seq<Id>)
    requires PinentryInv(p, m)
    ensures PinentryInv(p.ForgetAll(ids), LiveAfterAll(m, Disconnections(ids)))
    ensures LiveAfterAll(m, Disconnections(ids)) == m - set id | id in ids && id in m && m[id] == Pinentry
    decreases |ids|
  {
    hide PinentryInv, FlowInv, PinTables.Forget;
    if ids != [] {
      ForgetFlow(p, m, ids[0], Cancelled, GONE);
      assert Disconnections(ids)[1..] == Disconnections(ids[1..]);
      ForgetAllFlows(p.Forget(ids[0]), LiveAfter(m, DoCloseFlow(ids[0], Cancelled, GONE)), ids[1..]);
      assert ids == [ids[0]] + ids[1..];
    }
  }

  lemma PinentryRequestLive(t: PinTables, store: map<Id, SessionData>, msg: PinentryMessage, s: Socket, pid: Pid, env: Env)
    ensures var r := ParsePinentry(msg, s, pid, env);
            var (_, ops) := PinentryHandleRequest(t, store, msg, s, pid, env);
            LiveAfterAll(LiveSessions(store), ops) ==
            if t.OwnedByOther(r.cookie, pid) || r.cookie in store then LiveSessions(store) else LiveSessions(store)[r.cookie := Pinentry]
  {
    hide PinTables.ResolveRetry, ParsePinentry, PinTables.Pended;
    var m, r := LiveSessions(store), ParsePinentry(msg, s, pid, env);
    if !t.OwnedByOther(r.cookie, pid) {
      var (_, cur, max) := t.ResolveRetry(r);
      var retried := if r.cookie in t.awaiting then [DoError(r.cookie, OrFailed(r.error))] else [];
      var prompted := if r.cookie in store then [DoReprompt(r.cookie, cur, max, r.prompt)]
                      else [DoOpen(r.cookie, Pinentry, PinentryContext(r, cur, max, env), r.prompt, false)];
      var complained := if r.error != "" && r.cookie !in t.reported then [DoError(r.cookie, r.error)] else [];
      LiveAfterConcat(m, retried + prompted, complained);
      LiveAfterConcat(m, retried, prompted);
      assert LiveAfterAll(m, retried) == m;
    }
  }

  lemma PinentryRequestKeeps(d: Daemon, m: Live, input: Input, env: Env)
    requires input.PinentryInput? && m == LiveSessions(d.core.store) && TablesInv(d.keyring, d.pinentry, d.polkit, m)
    ensures var e := EffectOf(d, input, env); TablesInv(e.keyring, e.pinentry, e.polkit, LiveAfterAll(m, e.ops))
  {
    hide PinentryInv, PolkitInv, LiveAfterAll, PinTables.Pended, PinTables.ResolveRetry, PinentryContext;
    var r := ParsePinentry(input.pinentryMsg, input.s, input.pid, env);
    PinentryRequestLive(d.pinentry, d.core.store, input.pinentryMsg, input.s, input.pid, env);
    var m' := if r.cookie in m then m else m[r.cookie := Pinentry];
    if !d.pinentry.OwnedByOther(r.cookie, r.pid) {
      PendedInv(d.pinentry, m, m', r);
      Frames(d.keyring, d.pinentry, d.polkit, m, m');
    }
  }

  lemma PendedInv(p: PinTables, m: Live, m': Live, r: PinentryRequest)
    requires PinentryInv(p, m) && !p.OwnedByOther(r.cookie, r.pid)
    requires forall id :: id in m' && id != r.cookie ==> id in m && m[id] == m'[id]
    ensures PinentryInv(p.Pended(r), m')
  {
    PendedKeeps(p, r);
    ClaimResolved(p, r);
    hide FlowInv, PinTables.ResolveRetry;
  }

  lemma RetryReportedKeeps(p: PinTables, m: Live, id: Id)
    requires PinentryInv(p, m) && id in m && m[id] == Pinentry
    ensures var t := p.CleanupAwaiting(id); PinentryInv(t.(reported := t.reported + {id}), m)
  {
    CleanupFlow(p, id);
    var t := p.CleanupAwaiting(id);
    assert FlowInv(t.(reported := t.reported + {id}));
  }

  lemma PinentryResultLive(p: PinTables, store: map<Id, SessionData>, id: Id, pid: Pid, word: ResultWord, error: string)
    ensures var m := LiveSessions(store);
            var (t, ops, _) := PinentryHandleResult(p, store, id, pid, word, error);
            LiveAfterAll(m, ops) == if t == p.Forget(id) && ops != [] && !word.SaysRetry? then m - {id} else m
  {
    var (_, ops, _) := PinentryHandleResult(p, store, id, pid, word, error);
    if ops != [] {
      assert ops == [ops[0]] + [];
      FirstLive(LiveSessions(store), ops[0], []);
    }
  }

  lemma PinentryResultKeeps(p: PinTables, store: map<Id, SessionData>, id: Id, pid: Pid, word: ResultWord, error: string)
    requires PinentryInv(p, LiveSessions(store))
    ensures var m := LiveSessions(store);
            var (t, ops, _) := PinentryHandleResult(p, store, id, pid, word, error);
            PinentryInv(t, LiveAfterAll(m, ops)) && (LiveAfterAll(m, ops) == m || (IsPinentry(store, id) && LiveAfterAll(m, ops) == m - {id}))
  {
    var m := LiveSessions(store);
    PinentryResultLive(p, store, id, pid, word, error);
    if IsPinentry(store, id) {
      RetryReportedKeeps(p, m, id);
      ForgetFlow(p, m, id, Success, "");
    }
  }

  // ---- polkit steps

  lemma FinishKeeps(q: PolkitTables, m: Live, id: Id)
    requires PolkitInv(q, m) && id in q.states
    ensures PolkitInv(q.Finish(id), m - {id})
  {
  }

  lemma RetryKeeps(q: PolkitTables, id: Id)
    requires AttemptInv(q) && id in q.states && q.states[id].retryCount + 1 < MAX_AUTH_RETRIES
    ensures AttemptInv(q.Retry(id)) && q.Retry(id).states.Keys == q.states.Keys
  {
    assert q.nextAttempt !in q.attempts;
  }

  lemma FinishAuthKeeps(q: PolkitTables, m: Live, id: Id, s: PolkitState)
    requires PolkitInv(q, m) && id in q.states
    requires s == q.states[id].(gainedAuth := s.gainedAuth, cancelled := s.cancelled, errorText := s.errorText)
    ensures var (r, ops) := q.(states := q.states[id := s]).FinishAuth(id); PolkitInv(r, LiveAfterAll(m, ops))
    ensures var (r, ops) := q.(states := q.states[id := s]).FinishAuth(id);
            LiveAfterAll(m, ops) == m || LiveAfterAll(m, ops) == m - {id}
  {
    if s.gainedAuth || s.cancelled || s.retryCount + 1 >= MAX_AUTH_RETRIES {
      FinishCase(q, m, id, s);
    } else {
      RetryKeeps(q.(states := q.states[id := s]), id);
    }
  }

  lemma FinishCase(q: PolkitTables, m: Live, id: Id, s: PolkitState)
    requires PolkitInv(q, m) && id in q.states && (s.gainedAuth || s.cancelled || s.retryCount + 1 >= MAX_AUTH_RETRIES)
    requires s == q.states[id].(gainedAuth := s.gainedAuth, cancelled := s.cancelled, errorText := s.errorText)
    ensures var (r, ops) := q.(states := q.states[id := s]).FinishAuth(id);
            PolkitInv(r, LiveAfterAll(m, ops)) && LiveAfterAll(m, ops) == m - {id}
  {
    FinishKeeps(q, m, id);
    assert q.(states := q.states[id := s]).Finish(id) == q.Finish(id);
    EndingLive(m, id, s.gainedAuth);
  }

  /** Both ways for a polkit request to end close its session. */
  lemma EndingLive(m: Live, id: Id, success: bool)
    ensures LiveAfterAll(m, [DoComplete(id, success)]) == m - {id}
    ensures LiveAfterAll(m, [DoError(id, "Too many failed attempts"), DoComplete(id, false)]) == m - {id}
  {
    var ops := [DoError(id, "Too many failed attempts"), DoComplete(id, false)];
    assert ops[1..] == [DoComplete(id, false)];
    assert LiveAfterAll(m, ops) == LiveAfterAll(LiveAfter(m, ops[0]), ops[1..]);
  }

  lemma CancelPendingKeeps(q: PolkitTables, m: Live, id: Id)
    requires PolkitInv(q, m)
    ensures var (r, ops) := q.CancelPending(id);
            && PolkitInv(r, LiveAfterAll(m, ops)) && LiveAfterAll(m, ops) == (if id in q.states then m - {id} else m)
            && r.states.Keys == q.states.Keys - {id}
  {
    if id in q.states {
      FinishAuthKeeps(q, m, id, q.states[id].(cancelled := true));
      var ops := [DoComplete(id, false)];
      assert LiveAfterAll(m, ops) == m - {id};
    }
  }

  lemma {:induction false} CancelEachKeeps(q: PolkitTables, m: Live, ids: seq<Id>)
    requires PolkitInv(q, m)
    ensures var (r, ops) := q.CancelEach(ids);
            && PolkitInv(r, LiveAfterAll(m, ops))
            && LiveAfterAll(m, ops) == m - (set id | id in ids && id in q.states)
    decreases |ids|
  {
    hide PolkitInv, LiveAfter, LiveAfterAll, PolkitTables.CancelPending;
    if ids == [] {
      QuietLive(m, []);
    } else {
      CancelPendingKeeps(q, m, ids[0]);
      var (t, ops) := q.CancelPending(ids[0]);
      CancelEachKeeps(t, LiveAfterAll(m, ops), ids[1..]);
      LiveAfterConcat(m, ops, t.CancelEach(ids[1..]).1);
      assert ids == [ids[0]] + ids[1..];
    }
  }

  lemma PolkitCompletedKeeps(q: PolkitTables, m: Live, attempt: Attempting, gained: bool)
    requires PolkitInv(q, m)
    ensures var (r, ops) := q.OnCompleted(attempt, gained); PolkitInv(r, LiveAfterAll(m, ops))
    ensures var (r, ops) := q.OnCompleted(attempt, gained);
            LiveAfterAll(m, ops) == m || (attempt in q.attempts && LiveAfterAll(m, ops) == m - {q.attempts[attempt]})
  {
    if attempt in q.attempts {
      var id := q.attempts[attempt];
      var s := q.states[id].(gainedAuth := gained, errorText := if gained then q.states[id].errorText else "Authentication failed");
      FinishAuthKeeps(q, m, id, s);
      var (t, ops) := q.(states := q.states[id := s]).FinishAuth(id);
      LiveAfterConcat(m, if gained then [] else [DoError(id, "Authentication failed")], ops);
    }
  }

  lemma PolkitSignalKeeps(q: PolkitTables, m: Live, attempt: Attempting, prompt: string, echo: bool)
    requires PolkitInv(q, m)
    ensures var (r, ops) := q.OnRequest(attempt, prompt, echo); PolkitInv(r, m) && LiveAfterAll(m, ops) == m
    ensures var (r, ops) := q.OnError(attempt, prompt); PolkitInv(r, m) && LiveAfterAll(m, ops) == m
    ensures var (r, ops) := q.OnInfo(attempt, prompt); PolkitInv(r, m) && LiveAfterAll(m, ops) == m
  {
    hide PolkitInv, LiveAfterAll;
    QuietLive(m, q.OnRequest(attempt, prompt, echo).1);
    QuietLive(m, q.OnError(attempt, prompt).1);
    QuietLive(m, q.OnInfo(attempt, prompt).1);
    if attempt in q.attempts {
      var id := q.attempts[attempt];
      AttemptsAreStates(q, m, attempt);
      StateTouched(q, m, id, q.states[id].(prompt := prompt, echoOn := echo, requestSent := true));
      StateTouched(q, m, id, q.states[id].(errorText := prompt));
    }
  }

  /** Display fields play no part in the agreement. */
  lemma StateTouched(q: PolkitTables, m: Live, id: Id, s: PolkitState)
    requires PolkitInv(q, m) && id in q.states
    requires s == q.states[id].(prompt := s.prompt, echoOn := s.echoOn, requestSent := s.requestSent, errorText := s.errorText)
    ensures PolkitInv(q.(states := q.states[id := s]), m)
  {
  }

  lemma InitiateKeeps(q: PolkitTables, store: map<Id, SessionData>, cookie: Id, hasIdentity: bool, result: AsyncResult, context: Context)
    requires PolkitInv(q, LiveSessions(store))
    ensures var m := LiveSessions(store);
            var (r, ops) := q.Initiate(store, cookie, hasIdentity, result, context);
            && PolkitInv(r, LiveAfterAll(m, ops))
            && LiveAfterAll(m, ops) == if ops != [] && cookie !in m then m[cookie := Polkit] else m
  {
    var m := LiveSessions(store);
    var (r, ops) := q.Initiate(store, cookie, hasIdentity, result, context);
    if ops != [] {
      assert ops == [ops[0]] + [];
      FirstLive(m, ops[0], []);
      assert q.nextAttempt !in q.attempts;
    }
  }

  /** A polkit step may open or close polkit sessions, nothing else. */
  ghost predicate OnlyPolkitChanges(m: Live, m': Live) {
    forall id :: (id in m && m[id] != Polkit) || (id in m' && m'[id] != Polkit) ==> id in m && id in m' && m'[id] == m[id]
  }

  function PolkitEffect(q: PolkitTables, store: map<Id, SessionData>, input: Input, env: Env): (PolkitTables, seq<Op>) {
    match input
    case PolkitInitiate(cookie, hasIdentity, result, message, actionId, user) =>
      q.Initiate(store, cookie, hasIdentity, result, PolkitContext(message, actionId, user, env))
    case PolkitRequest(attempt, prompt, echo) => q.OnRequest(attempt, prompt, echo)
    case PolkitCompleted(attempt, gained) => q.OnCompleted(attempt, gained)
    case PolkitError(attempt, text) => q.OnError(attempt, text)
    case PolkitInfo(attempt, text) => q.OnInfo(attempt, text)
    case PolkitCancelAll => q.CancelEach(env.idOrder(q.states.Keys))
    case _ => (q, [])
  }

  lemma PolkitEffectKeeps(q: PolkitTables, store: map<Id, SessionData>, input: Input, env: Env)
    requires PolkitInv(q, LiveSessions(store))
    ensures var (r, ops) := PolkitEffect(q, store, input, env);
            var m' := LiveAfterAll(LiveSessions(store), ops);
            PolkitInv(r, m') && OnlyPolkitChanges(LiveSessions(store), m')
  {
    hide AttemptInv, LiveSessions, PolkitInv, LiveAfterAll, PolkitTables.OnCompleted, PolkitTables.CancelEach;
    var m := LiveSessions(store);
    match input
    case PolkitCompleted(attempt, gained) =>
      PolkitCompletedKeeps(q, m, attempt, gained);
      if attempt in q.attempts {
        AttemptsAreStates(q, m, attempt);
        OnlyPolkitGoes(q, m, {q.attempts[attempt]});
      }
    case PolkitCancelAll =>
      var ids := env.idOrder(q.states.Keys);
      CancelEachKeeps(q, m, ids);
      OnlyPolkitGoes(q, m, set id | id in ids && id in q.states);
    case PolkitInitiate(cookie, hasIdentity, result, message, actionId, user) =>
      InitiateKeeps(q, store, cookie, hasIdentity, result, PolkitContext(message, actionId, user, env));
    case PolkitRequest(attempt, prompt, echo) => PolkitSignalKeeps(q, m, attempt, prompt, echo);
    case PolkitError(attempt, text) => PolkitSignalKeeps(q, m, attempt, text, false);
    case PolkitInfo(attempt, text) => PolkitSignalKeeps(q, m, attempt, text, false);
    case _ => QuietLive(m, []);
  }

  lemma AttemptsAreStates(q: PolkitTables, m: Live, attempt: Attempting)
    requires PolkitInv(q, m) && attempt in q.attempts
    ensures q.attempts[attempt] in q.states
  {
  }

  lemma OnlyPolkitGoes(q: PolkitTables, m: Live, ids: set<Id>)
    requires PolkitInv(q, m) && ids <= q.states.Keys
    ensures OnlyPolkitChanges(m, m - ids)
  {
  }

  // ---- answers, cancellations and disconnections

  lemma RespondKeeps(d: Daemon, m: Live, s: Socket, id: Id, response: string)
    requires m == LiveSessions(d.core.store) && TablesInv(d.keyring, d.pinentry, d.polkit, m)
    ensures var e := Respond(d, s, id, response); TablesInv(e.keyring, e.pinentry, e.polkit, LiveAfterAll(m, e.ops))
  {
    hide Respond, PinentryInv, FlowInv, PolkitInv, AttemptInv, LiveAfterAll, LiveSessions, PinTables.Answered;
    var e := Respond(d, s, id, response);
    var m' := LiveAfterAll(m, e.ops);
    RespondLive(d, m, s, id, response);
    RespondTables(d, s, id, response);
    if id in d.pinentry.pending {
      AnsweredInv(d.pinentry, m, id);
    }
    SubmittedInv(d.polkit, m, e.polkit.submitted);
    Frames(e.keyring, e.pinentry, e.polkit, m, m');
  }

  lemma AnsweredInv(p: PinTables, m: Live, id: Id)
    requires PinentryInv(p, m) && id in p.pending
    ensures PinentryInv(p.Answered(id), m)
  {
    AnsweredKeeps(p, id);
    hide FlowInv;
  }

  lemma SubmittedInv(q: PolkitTables, m: Live, submitted: seq<Submission>)
    requires PolkitInv(q, m)
    ensures PolkitInv(q.(submitted := submitted), m)
  {
  }

  lemma RespondTables(d: Daemon, s: Socket, id: Id, response: string)
    ensures var e := Respond(d, s, id, response);
            var heard := d.core.registry.Authorizes(s);
            && e.keyring == (if heard && id in d.keyring then d.keyring - {id} else d.keyring)
            && e.pinentry == (if heard && id !in d.keyring && id in d.pinentry.pending then d.pinentry.Answered(id) else d.pinentry)
            && e.polkit == d.polkit.(submitted := e.polkit.submitted)
  {
    hide PinTables.Answered;
  }

  lemma RespondLive(d: Daemon, m: Live, s: Socket, id: Id, response: string)
    requires m == LiveSessions(d.core.store)
    ensures LiveAfterAll(m, Respond(d, s, id, response).ops) == if d.core.registry.Authorizes(s) && id in d.keyring then m - {id} else m
  {
    hide LiveAfterAll, PinTables.Answered, PolkitTables.Submit;
    var ops := Respond(d, s, id, response).ops;
    if d.core.registry.Authorizes(s) && id in d.keyring {
      assert ops == [ops[0]] + ops[1..];
      FirstLive(m, ops[0], ops[1..]);
    } else {
      QuietLive(m, ops);
    }
  }

  lemma CancelLive(d: Daemon, m: Live, s: Socket, id: Id)
    requires m == LiveSessions(d.core.store) && TablesInv(d.keyring, d.pinentry, d.polkit, m)
    ensures var e := Cancel(d, s, id);
            LiveAfterAll(m, e.ops) ==
            if !d.core.registry.Authorizes(s) then m
            else if id in d.keyring then m - {id}
            else if HasRequest(d.pinentry, d.core.store, id) then LiveAfter(m, DoCloseFlow(id, Cancelled, ""))
            else if id in d.core.store && d.core.store[id].source == Polkit then m - {id}
            else m
  {
    hide PinentryInv, KeyringInv, PolkitInv;
    var e := Cancel(d, s, id);
    if d.core.registry.Authorizes(s) && (id in d.keyring || HasRequest(d.pinentry, d.core.store, id)) {
      assert e.ops == [e.ops[0]] + e.ops[1..];
      FirstLive(m, e.ops[0], e.ops[1..]);
    } else if d.core.registry.Authorizes(s) && id in d.core.store && d.core.store[id].source == Polkit {
      CancelPendingKeeps(d.polkit, m, id);
      var ops := d.polkit.CancelPending(id).1;
      LiveAfterConcat(m, ops, [Say(s, Ok(None))]);
      QuietLive(LiveAfterAll(m, ops), [Say(s, Ok(None))]);
    } else {
      QuietLive(m, e.ops);
    }
  }

  lemma CancelKeeps(d: Daemon, m: Live, s: Socket, id: Id)
    requires m == LiveSessions(d.core.store) && TablesInv(d.keyring, d.pinentry, d.polkit, m)
    ensures var e := Cancel(d, s, id); TablesInv(e.keyring, e.pinentry, e.polkit, LiveAfterAll(m, e.ops))
  {
    hide PinentryInv, LiveSessions, FlowInv, PolkitInv;
    var e := Cancel(d, s, id);
    var m' := LiveAfterAll(m, e.ops);
    CancelLive(d, m, s, id);
    Frames(d.keyring, d.pinentry, d.polkit, m, m');
    if d.core.registry.Authorizes(s) && id !in d.keyring {
      if HasRequest(d.pinentry, d.core.store, id) {
        ForgetFlow(d.pinentry, m, id, Cancelled, "");
      } else {
        CancelPendingKeeps(d.polkit, m, id);
      }
    }
  }

  ghost predicate WalksTables(d: Daemon, env: Env) {
    && Enumerates(env.idOrder(d.keyring.Keys), d.keyring.Keys)
    && Enumerates(env.idOrder(d.pinentry.pending.Keys), d.pinentry.pending.Keys)
  }

  lemma ValidWalks(d: Daemon, env: Env)
    requires env.Valid()
    ensures WalksTables(d, env)
  {
  }

  /** A disconnection closes exactly the sessions pending on the socket, and forgets exactly those requests. */
  lemma DisconnectLive(d: Daemon, m: Live, s: Socket, env: Env)
    requires m == LiveSessions(d.core.store) && KeyringInv(d.keyring, m) && PinentryInv(d.pinentry, m) && WalksTables(d, env)
    ensures LiveAfterAll(m, Disconnect(d, s, env).ops) == m - KeyringOwned(d.keyring, s) - PinentrySessionsOf(d, s)
  {
    hide FlowInv, LiveAfterAll, PinTables.ForgetAll, AttemptInv;
    var (k, kops) := KeyringCleanup(d.keyring, s, env);
    var (p, pops) := PinentryCleanup(d.pinentry, s, env);
    DisconnectOps(m, s, kops, pops);
    KeyringCleanupLive(d.keyring, m, s, env);
    PinentryCleanupLive(d.pinentry, m, m - KeyringOwned(d.keyring, s), s, env);
  }

  lemma DisconnectKeeps(d: Daemon, m: Live, s: Socket, env: Env)
    requires m == LiveSessions(d.core.store) && TablesInv(d.keyring, d.pinentry, d.polkit, m) && WalksTables(d, env)
    ensures var e := Disconnect(d, s, env); TablesInv(e.keyring, e.pinentry, e.polkit, LiveAfterAll(m, e.ops))
  {
    hide PinentryInv, PolkitInv, LiveAfterAll, PinentryCleanup;
    var e := Disconnect(d, s, env);
    var m1, m2 := m - KeyringOwned(d.keyring, s), LiveAfterAll(m, e.ops);
    DisconnectLive(d, m, s, env);
    KeyringCleanupLive(d.keyring, m, s, env);
    PinentryCleanupLive(d.pinentry, m, m1, s, env);
    assert PinentrySessionsOf(d, s) == set id | id in PinentryOwned(d.pinentry, s) && id in m && m[id] == Pinentry;
    Frames(e.keyring, e.pinentry, d.polkit, m1, m2);
    Frames(e.keyring, e.pinentry, d.polkit, m, m2);
  }

  /** The pinentry sessions whose request is pending on the socket. */
  ghost function PinentrySessionsOf(d: Daemon, s: Socket): set<Id> {
    set id | id in PinentryOwned(d.pinentry, s) && IsPinentry(d.core.store, id)
  }

  lemma DisconnectOps(m: Live, s: Socket, kops: seq<Op>, pops: seq<Op>)
    ensures LiveAfterAll(m, [DoUnsubscribe(s), DoRemoveProvider(s), DoRemoveWaiter(s)] + kops + pops + [DoEnsure])
         == LiveAfterAll(LiveAfterAll(m, kops), pops)
  {
    var front := [DoUnsubscribe(s), DoRemoveProvider(s), DoRemoveWaiter(s)];
    LiveAfterConcat(m, front + kops + pops, [DoEnsure]);
    LiveAfterConcat(m, front + kops, pops);
    LiveAfterConcat(m, front, kops);
    QuietLive(m, front);
    QuietLive(LiveAfterAll(LiveAfterAll(m, kops), pops), [DoEnsure]);
  }

  lemma PinentryCleanupLive(t: PinTables, m: Live, m1: Live, s: Socket, env: Env)
    requires Enumerates(env.idOrder(t.pending.Keys), t.pending.Keys) && PinentryInv(t, m) && m1.Keys <= m.Keys && forall id :: id in m1 ==> m1[id] == m[id]
    ensures var (t', ops) := PinentryCleanup(t, s, env);
            && PinentryInv(t', LiveAfterAll(m1, ops))
            && LiveAfterAll(m1, ops) == m1 - set id | id in PinentryOwned(t, s) && id in m && m[id] == Pinentry
  {
    hide PinentryInv, FlowInv, KeyringInv;
    var ids := Only(env.idOrder(t.pending.Keys), PinentryOwned(t, s));
    Frames(map[], t, NO_REQUESTS, m, m1);
    ForgetAllFlows(t, m1, ids);
    CleanupIds(t, s, env);
  }

  lemma CleanupIds(t: PinTables, s: Socket, env: Env)
    requires Enumerates(env.idOrder(t.pending.Keys), t.pending.Keys)
    ensures forall id :: id in Only(env.idOrder(t.pending.Keys), PinentryOwned(t, s)) <==> id in PinentryOwned(t, s)
    ensures Distinct(Only(env.idOrder(t.pending.Keys), PinentryOwned(t, s)))
  {
    OnlyElements(env.idOrder(t.pending.Keys), PinentryOwned(t, s));
    OnlyDistinct(env.idOrder(t.pending.Keys), PinentryOwned(t, s));
  }

  // ---- every step, every run

  lemma EffectKeepsTables(d: Daemon, input: Input, env: Env)
    requires env.Valid()
    requires TablesInv(d.keyring, d.pinentry, d.polkit, LiveSessions(d.core.store))
    ensures var e := EffectOf(d, input, env);
            TablesInv(e.keyring, e.pinentry, e.polkit, LiveAfterAll(LiveSessions(d.core.store), e.ops))
  {
    hide TablesInv, PinentryHandleRequest, PinentryHandleResult, Respond, Disconnect, LiveAfterAll, LiveSessions;
    var m := LiveSessions(d.core.store);
    match input
    case PinentryInput(_, _, _) => PinentryRequestKeeps(d, m, input, env);
    case ResultInput(s, pid, id, word, error) => ResultStepKeeps(d, s, pid, id, word, error, env);
    case RespondInput(s, id, response) => RespondKeeps(d, m, s, id, response);
    case CancelInput(s, id) => CancelKeeps(d, m, s, id);
    case DisconnectInput(s) =>
      ValidWalks(d, env);
      DisconnectKeeps(d, m, s, env);
    case OutcomeTimer(timer) => TimerStepKeeps(d, timer, env);
    case KeyringInput(s, pid, msg) => KeyringStepKeeps(d, s, pid, msg, env);
    case PolkitInitiate(_, _, _, _, _, _) => PolkitStepKeeps(d, input, env);
    case PolkitRequest(_, _, _) => PolkitStepKeeps(d, input, env);
    case PolkitCompleted(_, _) => PolkitStepKeeps(d, input, env);
    case PolkitError(_, _) => PolkitStepKeeps(d, input, env);
    case PolkitInfo(_, _) => PolkitStepKeeps(d, input, env);
    case PolkitCancelAll => PolkitStepKeeps(d, input, env);
    case _ => QuietLive(m, EffectOf(d, input, env).ops);
  }

  lemma PolkitStepKeeps(d: Daemon, input: Input, env: Env)
    requires input.PolkitInitiate? || input.PolkitRequest? || input.PolkitCompleted? || input.PolkitError? || input.PolkitInfo? || input.PolkitCancelAll?
    requires TablesInv(d.keyring, d.pinentry, d.polkit, LiveSessions(d.core.store))
    ensures var e := EffectOf(d, input, env);
            TablesInv(e.keyring, e.pinentry, e.polkit, LiveAfterAll(LiveSessions(d.core.store), e.ops))
  {
    var m := LiveSessions(d.core.store);
    var (r, ops) := PolkitEffect(d.polkit, d.core.store, input, env);
    assert EffectOf(d, input, env) == Effect(d.keyring, d.pinentry, r, ops);
    PolkitEffectKeeps(d.polkit, d.core.store, input, env);
    Frames(d.keyring, d.pinentry, r, m, LiveAfterAll(m, ops));
  }

  lemma ResultStepKeeps(d: Daemon, s: Socket, pid: Pid, id: Id, word: ResultWord, error: string, env: Env)
    requires TablesInv(d.keyring, d.pinentry, d.polkit, LiveSessions(d.core.store))
    ensures var e := EffectOf(d, ResultInput(s, pid, id, word, error), env);
            TablesInv(e.keyring, e.pinentry, e.polkit, LiveAfterAll(LiveSessions(d.core.store), e.ops))
  {
    hide PinentryInv, FlowInv, PolkitInv, LiveAfterAll;
    var m := LiveSessions(d.core.store);
    PinentryResultKeeps(d.pinentry, d.core.store, id, pid, word, error);
    var (t, ops, reply) := PinentryHandleResult(d.pinentry, d.core.store, id, pid, word, error);
    LiveAfterConcat(m, ops, [Say(s, reply)]);
    QuietLive(LiveAfterAll(m, ops), [Say(s, reply)]);
    Frames(d.keyring, t, d.polkit, m, LiveAfterAll(m, ops));
  }

  lemma TimerStepKeeps(d: Daemon, timer: nat, env: Env)
    requires TablesInv(d.keyring, d.pinentry, d.polkit, LiveSessions(d.core.store))
    ensures var e := EffectOf(d, OutcomeTimer(timer), env);
            TablesInv(e.keyring, e.pinentry, e.polkit, LiveAfterAll(LiveSessions(d.core.store), e.ops))
  {
    hide PinentryInv, PolkitInv, LiveSessions, PinTables.Forget, LiveAfterAll;
    if timer in d.pinentry.timers {
      var m, id := LiveSessions(d.core.store), d.pinentry.timers[timer];
      var op := DoCloseFlow(id, Error, NO_RESULT);
      assert [op] == [op] + [];
      FirstLive(m, op, []);
      ForgetFlow(d.pinentry, m, id, Error, NO_RESULT);
      Frames(d.keyring, d.pinentry, d.polkit, m, LiveAfter(m, op));
    } else {
      QuietLive(LiveSessions(d.core.store), []);
    }
  }

  lemma KeyringRequestLive(t: KeyringTable, store: map<Id, SessionData>, msg: KeyringMessage, s: Socket, pid: Pid, env: Env)
    requires KeyringInv(t, LiveSessions(store))
    ensures var m := LiveSessions(store);
            var (t', ops) := KeyringHandleRequest(t, store, msg, s, pid, env);
            var cookie := KeyringCookie(msg, env);
            && LiveAfterAll(m, ops) == (if cookie in store then m else m[cookie := Keyring])
            && KeyringInv(t', LiveAfterAll(m, ops))
  {
    var ops := KeyringHandleRequest(t, store, msg, s, pid, env).1;
    assert ops == [ops[0]] + [];
    FirstLive(LiveSessions(store), ops[0], []);
  }

  lemma KeyringStepKeeps(d: Daemon, s: Socket, pid: Pid, msg: KeyringMessage, env: Env)
    requires TablesInv(d.keyring, d.pinentry, d.polkit, LiveSessions(d.core.store))
    ensures var e := EffectOf(d, KeyringInput(s, pid, msg), env);
            TablesInv(e.keyring, e.pinentry, e.polkit, LiveAfterAll(LiveSessions(d.core.store), e.ops))
  {
    var m := LiveSessions(d.core.store);
    KeyringRequestLive(d.keyring, d.core.store, msg, s, pid, env);
    var ops := KeyringHandleRequest(d.keyring, d.core.store, msg, s, pid, env).1;
    Frames(map[], d.pinentry, d.polkit, m, LiveAfterAll(m, ops));
  }

  ghost predicate DaemonInv(d: Daemon) {
    CoreInv(d.core) && TablesInv(d.keyring, d.pinentry, d.polkit, LiveSessions(d.core.store))
  }

  lemma HandleKeeps(d: Daemon, input: Input, env: Env)
    requires env.Valid() && DaemonInv(d)
    ensures DaemonInv(Handle(d, input, env))
  {
    var e := EffectOf(d, input, env);
    ApplyKeeps(d.core, e.ops, env);
    ApplyLive(d.core, e.ops, env);
    EffectKeepsTables(d, input, env);
  }

  /** In every reachable state: one elected provider or an empty registry; a bounded, ordered queue; events that
      tell the story of the store; back-offs respected; and all three managers in agreement with the store. */
  lemma {:induction false} RunKeeps(steps: seq<Step>)
    requires ValidSteps(steps)
    ensures DaemonInv(Run(INITIAL, steps))
  {
    if steps != [] {
      RunKeeps(steps[..|steps| - 1]);
      var last := steps[|steps| - 1];
      HandleKeeps(Run(INITIAL, steps[..|steps| - 1]), last.input, last.env);
    }
  }
}
