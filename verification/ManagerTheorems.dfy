/** Pinentry ownership, and polkit attempts and results. */
module ManagerTheorems {
  import opened Base
  import opened Sessions
  import opened Environments
  import opened ProviderRegistries
  import opened AgentCore
  import opened CoreInvariants
  import opened KeyringManagers
  import opened PinentryManagers
  import opened PolkitListeners
  import opened Daemons
  import opened TableAgreement
  import opened StepOutcome
  import opened SessionTheorems

  // ---- pinentry ownership

  function PinentryIds(m: Live): set<Id> {
    set id | id in m && m[id] == Pinentry
  }

  /** The owner table lists exactly the live pinentry sessions, and no flow outlives its session. */
  ghost predicate PinentryExact(d: Daemon) {
    && d.pinentry.owners.Keys == PinentryIds(LiveSessions(d.core.store))
    && d.pinentry.reported <= d.pinentry.owners.Keys
  }

  /** A pinentry request naming a live session that is not a pinentry session. */
  predicate NamesForeignSession(d: Daemon, input: Input, env: Env) {
    input.PinentryInput? &&
    var cookie := ParsePinentry(input.pinentryMsg, input.s, input.pid, env).cookie;
    !d.pinentry.OwnedByOther(cookie, input.pid) && cookie in d.core.store && d.core.store[cookie].source != Pinentry
  }

  lemma PinentryIdsOf(m: Live, ended: set<Id>, begun: Live)
    requires begun.Keys !! m.Keys
    ensures PinentryIds((m - ended) + begun) == PinentryIds(m) - ended + PinentryIds(begun)
  {
  }

  lemma PinentryIdsStep(d: Daemon, input: Input, env: Env)
    requires env.Valid() && DaemonInv(d)
    ensures PinentryIds(LiveSessions(Handle(d, input, env).core.store)) ==
            PinentryIds(LiveSessions(d.core.store)) - Closes(d, input) + PinentryIds(Opens(d, input, env))
  {
    StepOpensAndCloses(d, input, env);
    PinentryIdsOf(LiveSessions(d.core.store), Closes(d, input), Opens(d, input, env));
  }

  lemma RequestTable(d: Daemon, s: Socket, pid: Pid, msg: PinentryMessage, env: Env)
    requires d.pinentry.reported <= d.pinentry.owners.Keys
    ensures var r := ParsePinentry(msg, s, pid, env);
            var p' := PinentryHandleRequest(d.pinentry, d.core.store, msg, s, pid, env).0;
            && p'.owners.Keys == (if d.pinentry.OwnedByOther(r.cookie, pid) then d.pinentry.owners.Keys else d.pinentry.owners.Keys + {r.cookie})
            && p'.reported <= p'.owners.Keys
  {
  }

  lemma RequestIds(d: Daemon, s: Socket, pid: Pid, msg: PinentryMessage, env: Env)
    requires env.Valid() && DaemonInv(d)
    ensures var r := ParsePinentry(msg, s, pid, env);
            PinentryIds(LiveSessions(Handle(d, PinentryInput(s, pid, msg), env).core.store)) ==
            PinentryIds(LiveSessions(d.core.store))
            + if d.pinentry.OwnedByOther(r.cookie, pid) || r.cookie in d.core.store then {} else {r.cookie}
  {
    hide Handle, EffectOf, DaemonInv, LiveSessions;
    var input, r := PinentryInput(s, pid, msg), ParsePinentry(msg, s, pid, env);
    PinentryIdsStep(d, input, env);
    assert PinentryIds(Opens(d, input, env)) ==
           if d.pinentry.OwnedByOther(r.cookie, pid) || r.cookie in d.core.store then {} else {r.cookie};
  }

  lemma RequestOwners(d: Daemon, s: Socket, pid: Pid, msg: PinentryMessage, env: Env)
    requires env.Valid() && DaemonInv(d) && PinentryExact(d)
    ensures PinentryExact(Handle(d, PinentryInput(s, pid, msg), env)) <==> !NamesForeignSession(d, PinentryInput(s, pid, msg), env)
  {
    hide CoreInv, FlowInv, Env.Valid, PinTables.Pended, Apply, DaemonInv;
    var r := ParsePinentry(msg, s, pid, env);
    RequestIds(d, s, pid, msg, env);
    RequestTable(d, s, pid, msg, env);
    assert r.cookie in PinentryIds(LiveSessions(d.core.store)) <==> IsPinentry(d.core.store, r.cookie);
  }

  /** Forgetting a flow and closing its session go together. */
  lemma ForgettingOwners(d: Daemon, input: Input, env: Env, ids: set<Id>)
    requires env.Valid() && DaemonInv(d) && PinentryExact(d)
    requires !input.PinentryInput?
    requires forall id :: id in PinentryIds(LiveSessions(d.core.store)) ==> (id in Closes(d, input) <==> id in ids)
    requires var p' := EffectOf(d, input, env).pinentry;
             p'.owners.Keys == d.pinentry.owners.Keys - ids && p'.reported <= p'.owners.Keys
    ensures PinentryExact(Handle(d, input, env))
  {
    hide EffectOf, Apply, ApplyOne, CoreInv;
    PinentryIdsStep(d, input, env);
    assert PinentryIds(Opens(d, input, env)) == {};
  }

  lemma PolkitClosesNoPinentry(d: Daemon, input: Input)
    requires DaemonInv(d) && (input.PolkitCompleted? || input.PolkitCancelAll?)
    ensures Closes(d, input) !! PinentryIds(LiveSessions(d.core.store))
  {
    var m := LiveSessions(d.core.store);
    forall id | id in Closes(d, input) ensures id in m && m[id] == Polkit {
      assert id in d.polkit.states;
    }
  }

  lemma DisconnectOwners(d: Daemon, s: Socket, env: Env)
    requires env.Valid() && DaemonInv(d) && PinentryExact(d)
    ensures PinentryExact(Handle(d, DisconnectInput(s), env))
  {
    hide Apply, Handle, CoreInv, PinTables.Forget, Env.Valid, AttemptInv, Respond, PolkitInv;
    var ids, m := PinentryOwned(d.pinentry, s), LiveSessions(d.core.store);
    var p' := PinentryCleanup(d.pinentry, s, env).0;
    ValidWalks(d, env);
    CleanupScrubs(d.pinentry, s, env);
    forall id ensures id in p'.owners <==> id in d.pinentry.owners && id !in ids {
      assert if id in ids then Forgotten(p', id) else FlowAgrees(d.pinentry, p', id);
    }
    forall id | id in p'.reported ensures id in p'.owners {
      assert if id in ids then Forgotten(p', id) else FlowAgrees(d.pinentry, p', id);
    }
    assert KeyringInv(d.keyring, m);
    assert ids <= d.pinentry.owners.Keys;
    ForgettingOwners(d, DisconnectInput(s), env, ids);
  }

  /** Steps that leave the flow tables alone close no pinentry session. */
  lemma UntouchedOwners(d: Daemon, input: Input, env: Env)
    requires env.Valid() && DaemonInv(d) && PinentryExact(d)
    requires !input.PinentryInput? && !input.DisconnectInput? && !input.CancelInput? && !input.ResultInput? && !input.OutcomeTimer?
    ensures PinentryExact(Handle(d, input, env))
  {
    hide LiveSessions, CoreInv, Env.Valid, Apply;
    assert KeyringInv(d.keyring, LiveSessions(d.core.store));
    if input.PolkitCompleted? || input.PolkitCancelAll? {
      PolkitClosesNoPinentry(d, input);
    }
    if input.RespondInput? {
      RespondOwners(d, input.s, input.id, input.response);
    }
    ForgettingOwners(d, input, env, {});
  }

  lemma RespondOwners(d: Daemon, s: Socket, id: Id, response: string)
    ensures Respond(d, s, id, response).pinentry.owners == d.pinentry.owners
    ensures Respond(d, s, id, response).pinentry.reported == d.pinentry.reported
  {
  }

  lemma ResultOwners(d: Daemon, s: Socket, pid: Pid, id: Id, word: ResultWord, error: string, env: Env)
    requires env.Valid() && DaemonInv(d) && PinentryExact(d)
    ensures PinentryExact(Handle(d, ResultInput(s, pid, id, word, error), env))
  {
    hide CoreInv, DaemonInv, Apply, Handle, Env.Valid;
    ForgettingOwners(d, ResultInput(s, pid, id, word, error), env, if Terminates(d, id, pid, word) then {id} else {});
  }

  lemma TimerOwners(d: Daemon, timer: nat, env: Env)
    requires env.Valid() && DaemonInv(d) && PinentryExact(d)
    ensures PinentryExact(Handle(d, OutcomeTimer(timer), env))
  {
    hide CoreInv, ApplyOne, Apply, FlowInv;
    assert FlowInv(d.pinentry);
    ForgettingOwners(d, OutcomeTimer(timer), env, if timer in d.pinentry.timers then {d.pinentry.timers[timer]} else {});
  }

  /** One step keeps the owner table exact, unless it is a request naming a session of another kind. */
  lemma PinentryExactStep(d: Daemon, input: Input, env: Env)
    requires env.Valid() && DaemonInv(d) && PinentryExact(d)
    ensures PinentryExact(Handle(d, input, env)) <==> !NamesForeignSession(d, input, env)
  {
    hide Handle;
    match input
    case PinentryInput(s, pid, msg) => RequestOwners(d, s, pid, msg, env);
    case DisconnectInput(s) => DisconnectOwners(d, s, env);
    case CancelInput(s, id) => CancelOwners(d, s, id, env);
    case ResultInput(s, pid, id, word, error) => ResultOwners(d, s, pid, id, word, error, env);
    case OutcomeTimer(timer) => TimerOwners(d, timer, env);
    case _ => UntouchedOwners(d, input, env);
  }

  lemma CancelOwners(d: Daemon, s: Socket, id: Id, env: Env)
    requires env.Valid() && DaemonInv(d) && PinentryExact(d)
    ensures PinentryExact(Handle(d, CancelInput(s, id), env))
  {
    hide CoreInv, ApplyOne, PolkitInv, Handle;
    var flow := d.core.registry.Authorizes(s) && id !in d.keyring && HasRequest(d.pinentry, d.core.store, id);
    assert KeyringInv(d.keyring, LiveSessions(d.core.store)) && FlowInv(d.pinentry);
    ForgettingOwners(d, CancelInput(s, id), env, if flow then {id} else {});
  }

  ghost predicate NoForeignSession(steps: seq<Step>) {
    steps == [] ||
    var n := |steps| - 1;
    NoForeignSession(steps[..n]) && !NamesForeignSession(Run(INITIAL, steps[..n]), steps[n].input, steps[n].env)
  }

  /** With cookies disjoint across sources, owners are exactly the live pinentry sessions in every reachable state. */
  lemma {:induction false} PinentryExactAlways(steps: seq<Step>)
    requires ValidSteps(steps) && NoForeignSession(steps)
    ensures PinentryExact(Run(INITIAL, steps))
  {
    if steps != [] {
      var n := |steps| - 1;
      PinentryExactAlways(steps[..n]);
      RunKeeps(steps[..n]);
      PinentryExactStep(Run(INITIAL, steps[..n]), steps[n].input, steps[n].env);
    } else {
      assert PinentryIds(LiveSessions(INITIAL.core.store)) == {};
    }
  }

  /** An armed timer belongs to a flow awaiting its outcome, so a timer that fires is never stale. */
  lemma TimersAreAwaiting(steps: seq<Step>, timer: nat)
    requires ValidSteps(steps)
    ensures var p := Run(INITIAL, steps).pinentry;
            timer in p.timers <==> exists id :: id in p.awaiting && p.awaiting[id].timer == timer
  {
    RunKeeps(steps);
    var p := Run(INITIAL, steps).pinentry;
    assert FlowInv(p);
    if timer in p.timers {
      assert p.timers[timer] in p.awaiting && p.awaiting[p.timers[timer]].timer == timer;
    }
  }

  // ---- polkit attempts and results

  predicate Holds(q: PolkitTables, r: AsyncResult) {
    exists id :: id in q.states && q.states[id].result == r
  }

  /** Results given so far are completed once or still held by one request; a request has used one attempt more than
      it has retries, so never more than three. */
  ghost predicate ResultInv(q: PolkitTables, given: set<AsyncResult>) {
    && (forall i, j :: i in q.states && j in q.states && q.states[i].result == q.states[j].result ==> i == j)
    && (forall id :: id in q.states ==> q.states[id].result in given && multiset(q.started)[q.states[id].result] == q.states[id].retryCount + 1)
    && (forall r :: multiset(q.completed)[r] == if r in given && !Holds(q, r) then 1 else 0)
    && (forall r :: multiset(q.started)[r] <= MAX_AUTH_RETRIES)
    && (forall r :: r !in given ==> multiset(q.started)[r] == 0)
  }

  lemma NotHeldYet(q: PolkitTables, given: set<AsyncResult>, r: AsyncResult)
    requires ResultInv(q, given) && r !in given
    ensures !Holds(q, r) && multiset(q.completed)[r] == 0 && multiset(q.started)[r] == 0
  {
  }

  lemma RejectResult(q: PolkitTables, given: set<AsyncResult>, r: AsyncResult)
    requires ResultInv(q, given) && r !in given
    ensures ResultInv(q.Reject(r), given + {r})
  {
    NotHeldYet(q, given, r);
    SameResults(q, q.Reject(r));
    hide Holds;
    assert multiset(q.completed + [r]) == multiset(q.completed) + multiset{r};
  }

  lemma SkippedAttempt(q: PolkitTables, given: set<AsyncResult>)
    requires ResultInv(q, given)
    ensures ResultInv(q.(nextAttempt := q.nextAttempt + 1), given)
  {
    SameResults(q, q.(nextAttempt := q.nextAttempt + 1));
    hide Holds;
  }

  lemma BeginHolds(q: PolkitTables, cookie: Id, r: AsyncResult, x: AsyncResult)
    requires cookie !in q.states
    ensures Holds(q.Begin(cookie, r), x) == (Holds(q, x) || x == r)
  {
    var q' := q.Begin(cookie, r);
    assert q'.states[cookie].result == r;
    if id :| id in q.states && q.states[id].result == x {
      assert q'.states[id].result == x;
    }
  }

  lemma BeginResult(q: PolkitTables, given: set<AsyncResult>, cookie: Id, r: AsyncResult)
    requires ResultInv(q, given) && r !in given && cookie !in q.states
    ensures ResultInv(q.Begin(cookie, r), given + {r})
  {
    var q' := q.Begin(cookie, r);
    NotHeldYet(q, given, r);
    forall x ensures Holds(q', x) == (Holds(q, x) || x == r) {
      BeginHolds(q, cookie, r, x);
    }
    hide Holds;
    assert multiset(q.started + [r]) == multiset(q.started) + multiset{r};
  }

  lemma RetryResult(q: PolkitTables, given: set<AsyncResult>, id: Id)
    requires ResultInv(q, given) && id in q.states && q.states[id].retryCount + 1 < MAX_AUTH_RETRIES
    ensures ResultInv(q.Retry(id), given)
  {
    hide Holds;
    SameResults(q, q.Retry(id));
  }

  /** Requests keep their results. */
  lemma SameResults(q: PolkitTables, q': PolkitTables)
    requires q'.states.Keys == q.states.Keys && forall id :: id in q.states ==> q'.states[id].result == q.states[id].result
    ensures forall r :: Holds(q', r) == Holds(q, r)
  {
    forall r ensures Holds(q', r) == Holds(q, r) {
      if id :| id in q.states && q.states[id].result == r {
        assert q'.states[id].result == r;
      }
    }
  }

  lemma FinishResult(q: PolkitTables, given: set<AsyncResult>, id: Id)
    requires ResultInv(q, given) && id in q.states
    ensures ResultInv(q.Finish(id), given)
  {
    var q', r := q.Finish(id), q.states[id].result;
    forall x ensures Holds(q', x) == (Holds(q, x) && x != r) {
      if i :| i in q.states && q.states[i].result == x {
        assert x != r ==> i in q'.states && q'.states[i].result == x;
      }
    }
    assert Holds(q, r);
  }

  lemma TouchedResult(q: PolkitTables, given: set<AsyncResult>, id: Id, s: PolkitState)
    requires ResultInv(q, given) && id in q.states && s.result == q.states[id].result && s.retryCount == q.states[id].retryCount
    ensures ResultInv(q.(states := q.states[id := s]), given)
  {
    hide Holds;
    SameResults(q, q.(states := q.states[id := s]));
  }

  lemma FinishAuthResult(q: PolkitTables, given: set<AsyncResult>, id: Id)
    requires ResultInv(q, given) && id in q.states
    ensures ResultInv(q.FinishAuth(id).0, given)
  {
    FinishResult(q, given, id);
    if q.states[id].retryCount + 1 < MAX_AUTH_RETRIES {
      RetryResult(q, given, id);
    }
  }

  lemma {:induction false} CancelEachResult(q: PolkitTables, given: set<AsyncResult>, ids: seq<Id>)
    requires ResultInv(q, given)
    ensures ResultInv(q.CancelEach(ids).0, given)
    decreases |ids|
  {
    if ids != [] {
      CancelResult(q, given, ids[0]);
      CancelEachResult(q.CancelPending(ids[0]).0, given, ids[1..]);
    }
  }

  lemma CancelResult(q: PolkitTables, given: set<AsyncResult>, id: Id)
    requires ResultInv(q, given)
    ensures ResultInv(q.CancelPending(id).0, given)
  {
    if id in q.states {
      var s := q.states[id].(cancelled := true);
      TouchedResult(q, given, id, s);
      FinishAuthResult(q.(states := q.states[id := s]), given, id);
    }
  }

  lemma SignalResult(q: PolkitTables, store: map<Id, SessionData>, given: set<AsyncResult>, input: Input, env: Env)
    requires ResultInv(q, given) && (input.PolkitRequest? || input.PolkitCompleted? || input.PolkitError? || input.PolkitInfo?)
    ensures ResultInv(PolkitEffect(q, store, input, env).0, given)
  {
    hide ResultInv, PolkitTables.Initiate, PolkitTables.FinishAuth;
    if input.attempt in q.attempts && q.attempts[input.attempt] in q.states {
      var id := q.attempts[input.attempt];
      match input
      case PolkitRequest(_, prompt, echo) => TouchedResult(q, given, id, q.states[id].(prompt := prompt, echoOn := echo, requestSent := true));
      case PolkitError(_, text) => TouchedResult(q, given, id, q.states[id].(errorText := text));
      case PolkitInfo(_, _) =>
      case PolkitCompleted(_, gained) =>
        var s := q.states[id].(gainedAuth := gained, errorText := if gained then q.states[id].errorText else "Authentication failed");
        TouchedResult(q, given, id, s);
        FinishAuthResult(q.(states := q.states[id := s]), given, id);
    }
  }

  /** The result a step is given, if it is a polkit request. */
  function GivenBy(input: Input): set<AsyncResult> {
    if input.PolkitInitiate? then {input.result} else {}
  }

  lemma InitiateResult(q: PolkitTables, store: map<Id, SessionData>, given: set<AsyncResult>, cookie: Id, hasIdentity: bool, r: AsyncResult, context: Context)
    requires ResultInv(q, given) && r !in given
    ensures ResultInv(q.Initiate(store, cookie, hasIdentity, r, context).0, given + {r})
  {
    hide ResultInv;
    if cookie in q.states || !hasIdentity || cookie in store {
      RejectResult(q, given, r);
      SkippedAttempt(q.Reject(r), given + {r});
    } else {
      BeginResult(q, given, cookie, r);
    }
  }

  lemma OtherResult(d: Daemon, given: set<AsyncResult>, input: Input, env: Env)
    requires ResultInv(d.polkit, given) && !input.PolkitInitiate?
    ensures ResultInv(EffectOf(d, input, env).polkit, given)
  {
    hide ResultInv, Respond, PinentryHandleRequest;
    if input.PolkitRequest? || input.PolkitCompleted? || input.PolkitError? || input.PolkitInfo? {
      SignalResult(d.polkit, d.core.store, given, input, env);
    } else if input.PolkitCancelAll? {
      CancelEachResult(d.polkit, given, env.idOrder(d.polkit.states.Keys));
    } else if input.CancelInput? || input.RespondInput? {
      AnswerResult(d, given, input.s, input.id, if input.RespondInput? then input.response else "");
    }
  }

  lemma AnswerPolkit(d: Daemon, s: Socket, id: Id, response: string)
    ensures var q := Cancel(d, s, id).polkit; q == d.polkit || q == d.polkit.CancelPending(id).0
    ensures var q := Respond(d, s, id, response).polkit; q == d.polkit || q == d.polkit.Submit(id, response)
  {
  }

  lemma AnswerResult(d: Daemon, given: set<AsyncResult>, s: Socket, id: Id, response: string)
    requires ResultInv(d.polkit, given)
    ensures ResultInv(Cancel(d, s, id).polkit, given) && ResultInv(Respond(d, s, id, response).polkit, given)
  {
    AnswerPolkit(d, s, id, response);
    CancelResult(d.polkit, given, id);
    SubmitResult(d.polkit, given, id, response);
  }

  lemma ResultStep(d: Daemon, given: set<AsyncResult>, input: Input, env: Env)
    requires ResultInv(d.polkit, given) && GivenBy(input) !! given
    ensures ResultInv(EffectOf(d, input, env).polkit, given + GivenBy(input))
  {
    if input.PolkitInitiate? {
      var context := PolkitContext(input.message, input.actionId, input.user, env);
      InitiateResult(d.polkit, d.core.store, given, input.cookie, input.hasIdentity, input.result, context);
    } else {
      OtherResult(d, given, input, env);
      assert given + {} == given;
    }
  }

  lemma SubmitResult(q: PolkitTables, given: set<AsyncResult>, id: Id, secret: string)
    requires ResultInv(q, given)
    ensures ResultInv(q.Submit(id, secret), given)
  {
    SameResults(q, q.Submit(id, secret));
  }

  function Given(steps: seq<Step>): set<AsyncResult> {
    if steps == [] then {} else Given(steps[..|steps| - 1]) + GivenBy(steps[|steps| - 1].input)
  }

  /** Polkit never passes the same asynchronous result twice. */
  predicate FreshResults(steps: seq<Step>) {
    steps == [] || (FreshResults(steps[..|steps| - 1]) && GivenBy(steps[|steps| - 1].input) !! Given(steps[..|steps| - 1]))
  }

  /** In every reachable state each polkit result has been completed exactly once, or is held by exactly one request
      in progress and not completed; and no request has started more than three attempts. */
  lemma {:induction false} ResultsCompletedOnce(steps: seq<Step>)
    requires FreshResults(steps)
    ensures ResultInv(Run(INITIAL, steps).polkit, Given(steps))
  {
    if steps != [] {
      var n := |steps| - 1;
      ResultsCompletedOnce(steps[..n]);
      ResultStep(Run(INITIAL, steps[..n]), Given(steps[..n]), steps[n].input, steps[n].env);
    } else {
      forall r ensures !Holds(NO_REQUESTS, r) {
      }
    }
  }

  /** Signals of an attempt that has been dropped, or was never made, change nothing at all. */
  lemma DroppedSignalsChangeNothing(d: Daemon, input: Input, env: Env)
    requires input.PolkitRequest? || input.PolkitCompleted? || input.PolkitError? || input.PolkitInfo?
    requires input.attempt !in d.polkit.attempts
    ensures Handle(d, input, env) == d
  {
  }

  /** An attempt once dropped never comes back. */
  ghost predicate DroppedAttempt(q: PolkitTables, a: Attempting) {
    a < q.nextAttempt && a !in q.attempts
  }

  lemma {:induction false} CancelEachDrops(q: PolkitTables, ids: seq<Id>, a: Attempting)
    requires DroppedAttempt(q, a)
    ensures DroppedAttempt(q.CancelEach(ids).0, a)
    decreases |ids|
  {
    if ids != [] {
      CancelEachDrops(q.CancelPending(ids[0]).0, ids[1..], a);
    }
  }

  lemma DroppedStaysDropped(d: Daemon, input: Input, env: Env, a: Attempting)
    requires DroppedAttempt(d.polkit, a)
    ensures DroppedAttempt(EffectOf(d, input, env).polkit, a)
  {
    hide PinentryHandleRequest, PinentryHandleResult, KeyringHandleRequest, PinTables.Forget;
    if input.PolkitCancelAll? {
      CancelEachDrops(d.polkit, env.idOrder(d.polkit.states.Keys), a);
    } else if input.PolkitInitiate? || input.PolkitRequest? || input.PolkitCompleted? || input.PolkitError? || input.PolkitInfo? {
      SignalDrops(d.polkit, d.core.store, input, env, a);
    }
  }

  lemma SignalDrops(q: PolkitTables, store: map<Id, SessionData>, input: Input, env: Env, a: Attempting)
    requires DroppedAttempt(q, a) && !input.PolkitCancelAll?
    ensures DroppedAttempt(PolkitEffect(q, store, input, env).0, a)
  {
  }

  /** From the step that drops an attempt on, none of its signals has any effect. */
  lemma {:induction false} DroppedForever(d: Daemon, steps: seq<Step>, a: Attempting)
    requires DroppedAttempt(d.polkit, a)
    ensures DroppedAttempt(Run(d, steps).polkit, a)
  {
    if steps != [] {
      var n := |steps| - 1;
      DroppedForever(d, steps[..n], a);
      DroppedStaysDropped(Run(d, steps[..n]), steps[n].input, steps[n].env, a);
    }
  }
}
