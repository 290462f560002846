/** What each step hands to polkit: secrets for its attempts, new attempts, and completed results. */
module PolkitSteps {
  import opened Base
  import opened Sessions
  import opened Environments
  import opened ProviderRegistries
  import opened AgentCore
  import opened CoreInvariants
  import opened KeyringManagers
  import opened PinentryManagers
  import opened PolkitListeners
  import opened Daemons
  import opened TableAgreement

  /** A polkit request that an answer or a cancellation reaches: no pinentry request goes by the same name. */
  predicate ForPolkit(d: Daemon, s: Socket, id: Id) {
    d.core.registry.Authorizes(s) && id in d.polkit.states && id !in d.pinentry.pending && id !in d.pinentry.awaiting
  }

  /** Sessions of polkit requests are nobody else's. */
  lemma PolkitsOwn(d: Daemon, id: Id)
    requires DaemonInv(d)
    ensures id in d.polkit.states ==> id !in d.keyring && id in d.core.store && d.core.store[id].source == Polkit
    ensures id !in d.polkit.states ==> !(id in d.core.store && d.core.store[id].source == Polkit)
  {
    hide CoreInv, PinentryInv, AttemptInv;
    var m := LiveSessions(d.core.store);
    assert KeyringInv(d.keyring, m) && PolkitInv(d.polkit, m);
    assert id in m <==> id in d.core.store;
  }

  // ---- secrets

  /** The secret a step gives to polkit: the response of an authorised UI, for the attempt now running. */
  function Submits(d: Daemon, input: Input): seq<Submission> {
    if input.RespondInput? && ForPolkit(d, input.s, input.id)
    then [Submission(d.polkit.states[input.id].attempt, input.response)]
    else []
  }

  lemma RespondSubmits(d: Daemon, s: Socket, id: Id, response: string)
    requires DaemonInv(d)
    ensures Respond(d, s, id, response).polkit ==
            d.polkit.(submitted := d.polkit.submitted + Submits(d, RespondInput(s, id, response)))
  {
    hide DaemonInv, PinTables.Answered;
    PolkitsOwn(d, id);
  }

  lemma CancelSubmitsNothing(d: Daemon, s: Socket, id: Id)
    ensures Cancel(d, s, id).polkit.submitted == d.polkit.submitted
  {
    hide PinTables.Forget;
  }

  lemma {:induction false} CancelEachSubmitsNothing(q: PolkitTables, ids: seq<Id>)
    ensures q.CancelEach(ids).0.submitted == q.submitted
    decreases |ids|
  {
    if ids != [] {
      CancelEachSubmitsNothing(q.CancelPending(ids[0]).0, ids[1..]);
    }
  }

  lemma SignalsSubmitNothing(q: PolkitTables, store: map<Id, SessionData>, input: Input, env: Env)
    requires !input.PolkitCancelAll?
    ensures PolkitEffect(q, store, input, env).0.submitted == q.submitted
  {
  }

  /** The polkit tables after a step. */
  lemma PolkitPart(d: Daemon, input: Input, env: Env)
    ensures Handle(d, input, env).polkit ==
            if input.RespondInput? then Respond(d, input.s, input.id, input.response).polkit
            else if input.CancelInput? then Cancel(d, input.s, input.id).polkit
            else PolkitEffect(d.polkit, d.core.store, input, env).0
  {
    hide Respond, Daemons.Cancel, PinentryHandleRequest, PinentryHandleResult, KeyringHandleRequest, Apply, PolkitTables.OnCompleted,
      PolkitTables.OnRequest, PolkitTables.OnError, PolkitTables.OnInfo, PolkitTables.Initiate, PolkitTables.CancelEach, PolkitContext;
  }

  /** Polkit is given a secret exactly when an authorised UI answers a request of polkit's, and then it is given the
      response, for the attempt that is running. */
  lemma PolkitSecrets(d: Daemon, input: Input, env: Env)
    requires DaemonInv(d)
    ensures Handle(d, input, env).polkit.submitted == d.polkit.submitted + Submits(d, input)
  {
    hide DaemonInv, Handle, PolkitTables.OnCompleted, PolkitTables.CancelEach, PolkitTables.Initiate;
    PolkitPart(d, input, env);
    match input
    case RespondInput(s, id, response) => RespondSubmits(d, s, id, response);
    case CancelInput(s, id) => CancelSubmitsNothing(d, s, id);
    case PolkitCancelAll => CancelEachSubmitsNothing(d.polkit, env.idOrder(d.polkit.states.Keys));
    case _ => SignalsSubmitNothing(d.polkit, d.core.store, input, env);
  }

  // ---- attempts and results

  /** The attempt is running: it belongs to this request. */
  predicate Running(q: PolkitTables, attempt: Attempting) {
    attempt in q.attempts
  }

  /** The outcome of a running attempt that ends its request: authorised, or refused for the third time. */
  predicate Decisive(q: PolkitTables, attempt: Attempting, gained: bool)
    requires AttemptInv(q) && Running(q, attempt)
  {
    gained || q.states[q.attempts[attempt]].retryCount == 2
  }

  /** Requests that a step turns away. */
  predicate TurnedAway(d: Daemon, input: Input) {
    input.PolkitInitiate? && (!input.hasIdentity || input.cookie in d.core.store)
  }

  function ResultsOf(q: PolkitTables, ids: seq<Id>): seq<AsyncResult> {
    if ids == [] then []
    else (if ids[0] in q.states then [q.states[ids[0]].result] else []) + ResultsOf(q, ids[1..])
  }

  /** The results that a step completes. */
  function Completes(d: Daemon, input: Input, env: Env): seq<AsyncResult>
    requires AttemptInv(d.polkit)
  {
    match input
    case PolkitInitiate(_, _, result, _, _, _) => if TurnedAway(d, input) then [result] else []
    case PolkitCompleted(attempt, gained) =>
      if Running(d.polkit, attempt) && Decisive(d.polkit, attempt, gained) then [d.polkit.states[d.polkit.attempts[attempt]].result] else []
    case CancelInput(s, id) => if ForPolkit(d, s, id) then [d.polkit.states[id].result] else []
    case PolkitCancelAll => ResultsOf(d.polkit, env.idOrder(d.polkit.states.Keys))
    case _ => []
  }

  /** The result of each attempt that a step starts. */
  function Starts(d: Daemon, input: Input): seq<AsyncResult>
    requires AttemptInv(d.polkit)
  {
    match input
    case PolkitInitiate(_, _, result, _, _, _) => if TurnedAway(d, input) then [] else [result]
    case PolkitCompleted(attempt, gained) =>
      if Running(d.polkit, attempt) && !Decisive(d.polkit, attempt, gained) then [d.polkit.states[d.polkit.attempts[attempt]].result] else []
    case _ => []
  }

  /** Nothing was completed and nothing started. */
  predicate Undecided(q: PolkitTables, q': PolkitTables) {
    q'.completed == q.completed && q'.started == q.started
  }

  lemma CompletedStep(q: PolkitTables, attempt: Attempting, gained: bool)
    requires AttemptInv(q)
    ensures var q' := q.OnCompleted(attempt, gained).0;
            if !Running(q, attempt) then q' == q
            else
              var id := q.attempts[attempt];
              var result := [q.states[id].result];
              if Decisive(q, attempt, gained)
              then q'.completed == q.completed + result && q'.started == q.started && q'.states == q.states - {id}
              else && q'.completed == q.completed && q'.started == q.started + result
                   && id in q'.states && q'.states[id].attempt == q.nextAttempt && q'.states[id].retryCount == q.states[id].retryCount + 1
                   && q'.attempts == (q.attempts - {attempt})[q.nextAttempt := id]
  {
  }

  lemma CancelStep(q: PolkitTables, id: Id)
    requires AttemptInv(q)
    ensures var q' := q.CancelPending(id).0;
            && AttemptInv(q')
            && (if id in q.states
                then q'.completed == q.completed + [q.states[id].result] && q'.started == q.started && q'.states == q.states - {id}
                else q' == q)
  {
  }

  lemma {:induction false} ResultsFrame(q: PolkitTables, q': PolkitTables, id: Id, ids: seq<Id>)
    requires q'.states == q.states - {id} && id !in ids
    ensures ResultsOf(q', ids) == ResultsOf(q, ids)
  {
    if ids != [] {
      ResultsFrame(q, q', id, ids[1..]);
    }
  }

  lemma {:induction false} CancelEachStep(q: PolkitTables, ids: seq<Id>)
    requires AttemptInv(q) && Distinct(ids)
    ensures var q' := q.CancelEach(ids).0; q'.completed == q.completed + ResultsOf(q, ids) && q'.started == q.started
    decreases |ids|
  {
    hide AttemptInv, PolkitTables.CancelPending;
    if ids != [] {
      CancelStep(q, ids[0]);
      var q1 := q.CancelPending(ids[0]).0;
      CancelEachStep(q1, ids[1..]);
      var head := if ids[0] in q.states then [q.states[ids[0]].result] else [];
      assert q1.completed == q.completed + head;
      assert ids[0] !in ids[1..];
      assert ResultsOf(q1, ids[1..]) == ResultsOf(q, ids[1..]) by {
        if ids[0] in q.states {
          ResultsFrame(q, q1, ids[0], ids[1..]);
        }
      }
      assert q.completed + head + ResultsOf(q, ids[1..]) == q.completed + (head + ResultsOf(q, ids[1..]));
    }
  }

  lemma InitiateStep(d: Daemon, input: Input, context: Context)
    requires DaemonInv(d) && input.PolkitInitiate?
    ensures var q' := d.polkit.Initiate(d.core.store, input.cookie, input.hasIdentity, input.result, context).0;
            && q'.completed == d.polkit.completed + (if TurnedAway(d, input) then [input.result] else [])
            && q'.started == d.polkit.started + (if TurnedAway(d, input) then [] else [input.result])
  {
    hide DaemonInv;
    PolkitsOwn(d, input.cookie);
  }

  lemma CancelInputStep(d: Daemon, s: Socket, id: Id)
    requires DaemonInv(d)
    ensures Cancel(d, s, id).polkit == if ForPolkit(d, s, id) then d.polkit.CancelPending(id).0 else d.polkit
  {
    hide DaemonInv, PolkitTables.CancelPending, PinTables.Forget;
    PolkitsOwn(d, id);
  }

  lemma SignalsDecideNothing(q: PolkitTables, store: map<Id, SessionData>, input: Input, env: Env)
    requires !input.PolkitCancelAll? && !input.PolkitInitiate? && !input.PolkitCompleted?
    ensures Undecided(q, PolkitEffect(q, store, input, env).0)
  {
  }

  /** A failed attempt is followed by a fresh one until the third; results are completed exactly on authorisation, on the
      third failure, on cancellation, and at once for requests that are turned away. */
  lemma PolkitResults(d: Daemon, input: Input, env: Env)
    requires env.Valid() && DaemonInv(d)
    ensures AttemptInv(d.polkit)
    ensures var q' := Handle(d, input, env).polkit;
            && q'.completed == d.polkit.completed + Completes(d, input, env)
            && q'.started == d.polkit.started + Starts(d, input)
  {
    assert PolkitInv(d.polkit, LiveSessions(d.core.store));
    assert Enumerates(env.idOrder(d.polkit.states.Keys), d.polkit.states.Keys);
    PolkitPart(d, input, env);
    hide DaemonInv, PolkitInv, AttemptInv, Handle, Env.Valid;
    if input.PolkitInitiate? {
      InitiateStep(d, input, PolkitContext(input.message, input.actionId, input.user, env));
    } else if input.RespondInput? {
      RespondSubmits(d, input.s, input.id, input.response);
    } else {
      DecisionStep(d, input, env);
    }
  }

  lemma DecisionStep(d: Daemon, input: Input, env: Env)
    requires DaemonInv(d) && AttemptInv(d.polkit) && Distinct(env.idOrder(d.polkit.states.Keys))
    requires !input.PolkitInitiate? && !input.RespondInput?
    ensures var q' := if input.CancelInput? then Cancel(d, input.s, input.id).polkit else PolkitEffect(d.polkit, d.core.store, input, env).0;
            && q'.completed == d.polkit.completed + Completes(d, input, env)
            && q'.started == d.polkit.started + Starts(d, input)
  {
    hide DaemonInv, AttemptInv, Daemons.Cancel;
    hide PolkitTables.OnCompleted, PolkitTables.CancelEach, PolkitTables.CancelPending, Distinct;
    match input
    case PolkitCompleted(attempt, gained) => CompletedStep(d.polkit, attempt, gained);
    case CancelInput(s, id) =>
      CancelInputStep(d, s, id);
      CancelStep(d.polkit, id);
    case PolkitCancelAll => CancelEachStep(d.polkit, env.idOrder(d.polkit.states.Keys));
    case _ => SignalsDecideNothing(d.polkit, d.core.store, input, env);
  }

  // ---- the requests themselves

  /** Polkit's requests after a step, by cookie, and the number of the next attempt. */
  datatype Requests = Requests(states: map<Id, PolkitState>, next: Attempting)

  function RequestsNext(d: Daemon, input: Input, env: Env): Requests
    requires AttemptInv(d.polkit)
  {
    var q := d.polkit;
    var same := Requests(q.states, q.nextAttempt);
    match input
    case PolkitInitiate(cookie, hasIdentity, result, _, _, _) =>
      if !hasIdentity || cookie in q.states then same
      else if cookie in d.core.store then same.(next := q.nextAttempt + 1)
      else Requests(q.states[cookie := PolkitState(cookie, q.nextAttempt, result, 0, false, false, true, "", false, "", false)], q.nextAttempt + 1)
    case PolkitRequest(attempt, prompt, echo) =>
      if !Running(q, attempt) then same
      else
        var id := q.attempts[attempt];
        same.(states := q.states[id := q.states[id].(prompt := prompt, echoOn := echo, requestSent := true)])
    case PolkitError(attempt, text) =>
      if !Running(q, attempt) then same
      else
        var id := q.attempts[attempt];
        same.(states := q.states[id := q.states[id].(errorText := text)])
    case PolkitCompleted(attempt, gained) =>
      if !Running(q, attempt) then same
      else
        var id := q.attempts[attempt];
        var s := q.states[id];
        if Decisive(q, attempt, gained) then same.(states := q.states - {id})
        else Requests(q.states[id := s.(retryCount := s.retryCount + 1, attempt := q.nextAttempt, errorText := "Authentication failed")],
                      q.nextAttempt + 1)
    case CancelInput(s, id) => if ForPolkit(d, s, id) then same.(states := q.states - {id}) else same
    case PolkitCancelAll => same.(states := map[])
    case _ => same
  }

  function RequestsOf(q: PolkitTables): Requests {
    Requests(q.states, q.nextAttempt)
  }

  lemma CompletedRequests(d: Daemon, attempt: Attempting, gained: bool, env: Env)
    requires AttemptInv(d.polkit)
    ensures RequestsOf(d.polkit.OnCompleted(attempt, gained).0) == RequestsNext(d, PolkitCompleted(attempt, gained), env)
  {
  }

  lemma CancelledRequests(q: PolkitTables, id: Id)
    requires AttemptInv(q)
    ensures var q' := q.CancelPending(id).0; AttemptInv(q') && RequestsOf(q') == Requests(q.states - {id}, q.nextAttempt)
  {
  }

  lemma {:induction false} CancelEachRequests(q: PolkitTables, ids: seq<Id>)
    requires AttemptInv(q)
    ensures RequestsOf(q.CancelEach(ids).0) == Requests(q.states - (set id | id in ids), q.nextAttempt)
    decreases |ids|
  {
    hide AttemptInv, PolkitTables.CancelPending;
    if ids == [] {
      assert q.states - (set id | id in ids) == q.states;
    } else {
      CancelledRequests(q, ids[0]);
      CancelEachRequests(q.CancelPending(ids[0]).0, ids[1..]);
      assert ids == [ids[0]] + ids[1..];
      assert q.states - {ids[0]} - (set id | id in ids[1..]) == q.states - (set id | id in ids);
    }
  }

  lemma SignalRequests(d: Daemon, input: Input, env: Env)
    requires AttemptInv(d.polkit) && (input.PolkitInitiate? || input.PolkitRequest? || input.PolkitError? || input.PolkitInfo?)
    ensures RequestsOf(PolkitEffect(d.polkit, d.core.store, input, env).0) == RequestsNext(d, input, env)
  {
    hide PolkitContext;
  }

  /** Every input, exactly: which requests of polkit's are in progress, on which attempt, with what retries and texts. */
  lemma StepRequests(d: Daemon, input: Input, env: Env)
    requires env.Valid() && DaemonInv(d)
    ensures AttemptInv(d.polkit)
    ensures RequestsOf(Handle(d, input, env).polkit) == RequestsNext(d, input, env)
  {
    assert PolkitInv(d.polkit, LiveSessions(d.core.store));
    assert Enumerates(env.idOrder(d.polkit.states.Keys), d.polkit.states.Keys);
    PolkitPart(d, input, env);
    hide DaemonInv, PolkitInv, AttemptInv, Handle, Env.Valid, RequestsOf;
    if input.PolkitInitiate? || input.PolkitRequest? || input.PolkitError? || input.PolkitInfo? {
      SignalRequests(d, input, env);
    } else if input.PolkitCompleted? {
      CompletedRequests(d, input.attempt, input.gained, env);
    } else {
      EndedRequests(d, input, env);
    }
  }

  lemma EndedRequests(d: Daemon, input: Input, env: Env)
    requires DaemonInv(d) && AttemptInv(d.polkit) && (forall id :: id in env.idOrder(d.polkit.states.Keys) <==> id in d.polkit.states)
    requires !input.PolkitInitiate? && !input.PolkitRequest? && !input.PolkitError? && !input.PolkitInfo? && !input.PolkitCompleted?
    ensures var q' := if input.RespondInput? then Respond(d, input.s, input.id, input.response).polkit
                      else if input.CancelInput? then Cancel(d, input.s, input.id).polkit
                      else PolkitEffect(d.polkit, d.core.store, input, env).0;
            RequestsOf(q') == RequestsNext(d, input, env)
  {
    var q, ids := d.polkit, env.idOrder(d.polkit.states.Keys);
    hide DaemonInv, AttemptInv, Daemons.Cancel, Respond, PolkitTables.CancelEach, PolkitTables.CancelPending, PolkitTables.OnCompleted;
    match input
    case RespondInput(s, id, response) => RespondSubmits(d, s, id, response);
    case CancelInput(s, id) =>
      CancelInputStep(d, s, id);
      CancelledRequests(q, id);
    case PolkitCancelAll =>
      CancelEachRequests(q, ids);
      assert q.states - (set id | id in ids) == map[];
    case _ =>
  }
}
