/** The polkit listener object: one state object per request, reached through two tables. */
module PolkitHandlers {
  import opened Base
  import opened Sessions
  import opened Environments
  import opened AgentCore
  import opened PolkitListeners
  import opened Agents

  class SessionState {
    const cookie: Id
    const result: AsyncResult
    var session: Attempting
    var retryCount: nat
    var gainedAuth: bool
    var cancelled: bool
    var inProgress: bool
    var prompt: string
    var echoOn: bool
    var errorText: string
    var requestSent: bool

    function Data(): PolkitState
      reads this
    {
      PolkitState(cookie, session, result, retryCount, gainedAuth, cancelled, inProgress, prompt, echoOn, errorText, requestSent)
    }

    constructor (cookie: Id, session: Attempting, result: AsyncResult)
      ensures this.cookie == cookie && Data() == PolkitState(cookie, session, result, 0, false, false, true, "", false, "", false)
    {
      this.cookie, this.session, this.result := cookie, session, result;
      retryCount, gainedAuth, cancelled, inProgress := 0, false, false, true;
      prompt, echoOn, errorText, requestSent := "", false, "", false;
    }
  }

  /** The request's current attempt is replaced by a new one. */
  function Renewed(d: PolkitTables, cookie: Id): PolkitTables
    requires cookie in d.states
  {
    d.(states := d.states[cookie := d.states[cookie].(attempt := d.nextAttempt)],
       attempts := d.attempts[d.nextAttempt := cookie], nextAttempt := d.nextAttempt + 1)
  }

  /** The failed attempt is counted and dropped. */
  function Failed(d: PolkitTables, cookie: Id): PolkitTables
    requires cookie in d.states
  {
    var s := d.states[cookie];
    d.(states := d.states[cookie := s.(retryCount := s.retryCount + 1)], attempts := d.attempts - {s.attempt})
  }

  /** The next attempt starts. */
  function Restarted(d: PolkitTables, cookie: Id): PolkitTables
    requires cookie in d.states
  {
    d.(states := d.states[cookie := d.states[cookie].(cancelled := false)], started := d.started + [d.states[cookie].result])
  }

  /** `Retry` in the order in which the listener does it. */
  lemma RetryIs(d: PolkitTables, cookie: Id)
    requires cookie in d.states
    ensures d.Retry(cookie) == Restarted(Renewed(Failed(d, cookie), cookie), cookie)
  {
  }

  lemma ApplyPair(c: Core, a: Op, b: Op, env: Env)
    ensures Apply(c, [a, b], env) == Apply(Apply(c, [a], env), [b], env)
  {
    assert [a, b] == [a] + [b];
    ApplyConcat(c, [a], [b], env);
  }

  lemma BeginIs(d: PolkitTables, cookie: Id, result: AsyncResult)
    ensures Restarted(d.Begin(cookie, result).(started := d.started), cookie) == d.Begin(cookie, result)
  {
  }

  function Dropped(d: PolkitTables, cookie: Id): PolkitTables
    requires cookie in d.states
  {
    d.(states := d.states - {cookie}, attempts := d.attempts - {d.states[cookie].attempt})
  }

  lemma WithdrawIs(d: PolkitTables, cookie: Id, result: AsyncResult)
    requires d.nextAttempt !in d.attempts && cookie !in d.states
    ensures Dropped(d.Begin(cookie, result).(started := d.started), cookie).Reject(result) == d.Reject(result).(nextAttempt := d.nextAttempt + 1)
  {
    var e := Dropped(d.Begin(cookie, result).(started := d.started), cookie);
    assert e.states == d.states;
    assert e.attempts == d.attempts;
  }

  /** A completed signal is noted, complained about if it failed, and concluded. */
  function Noted(d: PolkitTables, cookie: Id, gained: bool): PolkitTables
    requires cookie in d.states
  {
    var d1 := d.(states := d.states[cookie := d.states[cookie].(gainedAuth := gained)]);
    if gained then d1 else d1.(states := d1.states[cookie := d1.states[cookie].(errorText := "Authentication failed")])
  }

  lemma CompletedIs(c: Core, d: PolkitTables, attempt: Attempting, gained: bool, env: Env)
    requires attempt in d.attempts && d.attempts[attempt] in d.states
    ensures var id := d.attempts[attempt];
            var (t, ops) := Noted(d, id, gained).FinishAuth(id);
            var c1 := if gained then c else Apply(c, [DoError(id, "Authentication failed")], env);
            d.OnCompleted(attempt, gained).0 == t && Apply(c, d.OnCompleted(attempt, gained).1, env) == Apply(c1, ops, env)
  {
    var id := d.attempts[attempt];
    var ops := Noted(d, id, gained).FinishAuth(id).1;
    var s := d.states[id];
    var s' := s.(gainedAuth := gained, errorText := if gained then s.errorText else "Authentication failed");
    assert Noted(d, id, gained) == d.(states := d.states[id := s']);
    ApplyConcat(c, [DoError(id, "Authentication failed")], ops, env);
    assert [] + ops == ops;
  }

  /** One turn of `cancelAuthentication`. */
  lemma CancelNext(c: Core, d: PolkitTables, cookies: seq<Id>, i: nat, env: Env)
    requires i < |cookies|
    ensures var (t, ops) := d.CancelPending(cookies[i]);
            && d.CancelEach(cookies[i..]).0 == t.CancelEach(cookies[i + 1..]).0
            && Apply(c, d.CancelEach(cookies[i..]).1, env) == Apply(Apply(c, ops, env), t.CancelEach(cookies[i + 1..]).1, env)
  {
    assert cookies[i..][1..] == cookies[i + 1..];
    var (t, ops) := d.CancelPending(cookies[i]);
    ApplyConcat(c, ops, t.CancelEach(cookies[i + 1..]).1, env);
  }

  const TOO_MANY := "Too many failed attempts"

  class PolkitListener {
    var cookieToState: map<Id, SessionState>
    var sessionToState: map<Attempting, SessionState>
    var nextAttempt: Attempting
    ghost var completed: seq<AsyncResult>
    ghost var started: seq<AsyncResult>
    ghost var submitted: seq<Submission>

    ghost function Objects(): set<SessionState>
      reads this
    {
      cookieToState.Values
    }

    /** Both tables reach the same objects, and each object knows its keys. */
    ghost predicate Valid()
      reads this, Objects()
    {
      && (forall id :: id in cookieToState ==> cookieToState[id].cookie == id)
      && (forall a :: a in sessionToState ==>
            && a < nextAttempt && sessionToState[a].cookie in cookieToState
            && cookieToState[sessionToState[a].cookie] == sessionToState[a] && sessionToState[a].session == a)
    }

    ghost function States(): map<Id, PolkitState>
      reads this, Objects()
    {
      map id | id in cookieToState :: cookieToState[id].Data()
    }

    ghost function Attempts(): map<Attempting, Id>
      reads this
    {
      map a | a in sessionToState :: sessionToState[a].cookie
    }

    ghost function Data(): PolkitTables
      reads this, Objects()
    {
      PolkitTables(States(), Attempts(), nextAttempt, completed, started, submitted)
    }

    constructor ()
      ensures Valid() && Objects() == {} && Data() == NO_REQUESTS
    {
      cookieToState, sessionToState, nextAttempt := map[], map[], 0;
      completed, started, submitted := [], [], [];
    }

    ghost predicate Known(state: SessionState)
      reads this
    {
      state.cookie in cookieToState && cookieToState[state.cookie] == state
    }

    /** Changing one state object in place, and nothing else. */
    twostate lemma OnlyOne(state: SessionState)
      requires old(Valid()) && Known(state) && cookieToState == old(cookieToState)
      requires forall id :: id in cookieToState && id != state.cookie ==> unchanged(cookieToState[id])
      ensures States() == old(States())[state.cookie := state.Data()]
    {
    }

    // -- the tables alone

    /** A new request, before the agent has accepted it. */
    method Enter(cookie: Id, result: AsyncResult) returns (state: SessionState)
      requires Valid() && cookie !in cookieToState
      modifies this
      ensures Valid() && fresh(Objects() - old(Objects())) && Known(state) && state.cookie == cookie && state.result == result && fresh(state)
      ensures Data() == old(Data()).Begin(cookie, result).(started := old(Data()).started)
    {
      state := new SessionState(cookie, nextAttempt, result);
      cookieToState := cookieToState[cookie := state];
      sessionToState := sessionToState[nextAttempt := state];
      nextAttempt := nextAttempt + 1;
      assert States() == old(States())[cookie := state.Data()];
      assert Attempts() == old(Attempts())[state.session := cookie];
    }

    method Remove(state: SessionState)
      requires Valid() && Known(state)
      modifies this`cookieToState, this`sessionToState
      ensures Valid() && Objects() <= old(Objects())
      ensures Data() == old(Data()).(states := old(Data()).states - {state.cookie}, attempts := old(Data()).attempts - {state.session})
    {
      sessionToState := sessionToState - {state.session};
      cookieToState := cookieToState - {state.cookie};
      assert States() == old(States()) - {state.cookie};
      assert Attempts() == old(Attempts()) - {state.session};
    }

    /** `reattempt`, as far as it touches the request. */
    method Reattempt(state: SessionState)
      requires Valid() && Known(state)
      modifies state`cancelled, this`started
      ensures Valid() && Known(state) && state.cookie in old(Data()).states && Data() == Restarted(old(Data()), state.cookie)
    {
      KnownState(state);
      state.cancelled := false;
      started := started + [state.result];
      OnlyOne(state);
    }

    method Fail(state: SessionState)
      requires Valid() && Known(state)
      modifies state`retryCount, this`sessionToState
      ensures Valid() && Known(state) && Detached(state)
      ensures state.cookie in old(Data()).states && Data() == Failed(old(Data()), state.cookie)
    {
      hide PolkitListener.States;
      KnownState(state);
      state.retryCount := state.retryCount + 1;
      sessionToState := sessionToState - {state.session};
      OnlyOne(state);
      assert Attempts() == old(Attempts()) - {state.session};
    }

    ghost predicate Detached(state: SessionState)
      reads this
    {
      forall a :: a in sessionToState ==> sessionToState[a] != state
    }

    /** A new polkit session for the same request. */
    method Renew(state: SessionState)
      requires Valid() && Known(state) && Detached(state)
      modifies this`sessionToState, this`nextAttempt, state`session
      ensures Valid() && Known(state) && state.cookie in old(Data()).states && Data() == Renewed(old(Data()), state.cookie)
    {
      Move(state);
      Link(state);
    }

    method Move(state: SessionState)
      requires Valid() && Known(state) && Detached(state)
      modifies this`nextAttempt, state`session
      ensures Valid() && Known(state) && state.session == old(nextAttempt) && state.session !in sessionToState && state.session < nextAttempt
      ensures var d := old(Data());
              && state.cookie in d.states
              && Data() == d.(states := d.states[state.cookie := d.states[state.cookie].(attempt := d.nextAttempt)], nextAttempt := d.nextAttempt + 1)
    {
      hide PolkitListener.States;
      KnownState(state);
      state.session := nextAttempt;
      nextAttempt := nextAttempt + 1;
      OnlyOne(state);
    }

    method Link(state: SessionState)
      requires Valid() && Known(state) && state.session !in sessionToState && state.session < nextAttempt
      modifies this`sessionToState
      ensures Valid() && Known(state) && Data() == old(Data()).(attempts := old(Data()).attempts[state.session := state.cookie])
    {
      sessionToState := sessionToState[state.session := state];
      assert Attempts() == old(Attempts())[state.session := state.cookie];
      assert States() == old(States());
    }

    lemma KnownState(state: SessionState)
      requires Known(state)
      ensures state.cookie in Data().states && Data().states[state.cookie] == state.Data()
    {
    }

    method StartOver(state: SessionState)
      requires Valid() && Known(state)
      modifies this`sessionToState, this`nextAttempt, this`started, state
      ensures Valid() && state.cookie in old(Data()).states && Data() == old(Data()).Retry(state.cookie)
    {
      KnownState(state);
      RetryIs(Data(), state.cookie);
      Fail(state);
      Renew(state);
      Reattempt(state);
    }

    method Finish(state: SessionState)
      requires Valid() && Known(state)
      modifies this, state
      ensures Valid() && Objects() <= old(Objects()) && Data() == old(Data()).Finish(state.cookie)
    {
      KnownState(state);
      End(state);
      Remove(state);
      assert Data().states == old(Data()).states - {state.cookie};
    }

    method End(state: SessionState)
      requires Valid() && Known(state)
      modifies state`inProgress, this`completed
      ensures Valid() && Data() == old(Data()).(states := old(States())[state.cookie := old(state.Data()).(inProgress := false)],
                                                completed := old(completed) + [state.result])
    {
      state.inProgress := false;
      completed := completed + [state.result];
      OnlyOne(state);
    }

    // -- with the agent

    twostate lemma Untouched()
      requires unchanged(this) && forall id :: id in cookieToState ==> unchanged(cookieToState[id])
      ensures Data() == old(Data()) && Valid() == old(Valid())
    {
      assert States() == old(States());
    }

    // Telling the agent leaves the tables alone, and changing the tables leaves the agent alone.

    method TellPrompt(agent: Agent, id: Id, prompt: string, echo: bool, env: Env)
      requires Valid() && agent.Valid()
      modifies agent.Owned()
      ensures Valid() && Data() == old(Data()) && agent.Valid() && agent.store.Objects() == old(agent.store.Objects())
      ensures agent.Data() == Apply(old(agent.Data()), [DoPrompt(id, prompt, echo)], env)
    {
      agent.OnSessionRequest(id, prompt, echo, env);
      Untouched();
    }

    method TellRetry(agent: Agent, id: Id, error: string, env: Env)
      requires Valid() && agent.Valid()
      modifies agent.Owned()
      ensures Valid() && Data() == old(Data()) && agent.Valid() && agent.store.Objects() == old(agent.store.Objects())
      ensures agent.Data() == Apply(old(agent.Data()), [DoError(id, error)], env)
    {
      agent.OnSessionRetry(id, error, env);
      Untouched();
    }

    method TellInfo(agent: Agent, id: Id, info: string, env: Env)
      requires Valid() && agent.Valid()
      modifies agent.Owned()
      ensures Valid() && Data() == old(Data()) && agent.Valid() && agent.store.Objects() == old(agent.store.Objects())
      ensures agent.Data() == Apply(old(agent.Data()), [DoInfo(id, info)], env)
    {
      agent.OnSessionInfo(id, info, env);
      Untouched();
    }

    method TellComplete(agent: Agent, id: Id, success: bool, env: Env)
      requires Valid() && agent.Valid() && env.Valid()
      modifies agent.Owned()
      ensures Valid() && Data() == old(Data()) && agent.Valid() && agent.store.Objects() <= old(agent.store.Objects())
      ensures agent.Data() == Apply(old(agent.Data()), [DoComplete(id, success)], env)
    {
      agent.OnSessionComplete(id, success, env);
      Untouched();
    }

    method GiveUp(agent: Agent, id: Id, env: Env)
      requires Valid() && agent.Valid() && env.Valid()
      modifies agent.Owned()
      ensures Valid() && Data() == old(Data()) && agent.Valid() && agent.store.Objects() <= old(agent.store.Objects())
      ensures agent.Data() == Apply(old(agent.Data()), [DoError(id, TOO_MANY), DoComplete(id, false)], env)
    {
      ApplyPair(agent.Data(), DoError(id, TOO_MANY), DoComplete(id, false), env);
      TellRetry(agent, id, TOO_MANY, env);
      TellComplete(agent, id, false, env);
    }

    method FinishAuth(agent: Agent, state: SessionState, env: Env)
      requires Valid() && Known(state) && agent.Valid() && env.Valid()
      modifies this, Objects(), agent.Owned()
      ensures Valid() && Objects() <= old(Objects()) && agent.Valid() && agent.store.Objects() <= old(agent.store.Objects())
      ensures state.cookie in old(Data()).states
      ensures var (t, ops) := old(Data()).FinishAuth(state.cookie);
              Data() == t && agent.Data() == Apply(old(agent.Data()), ops, env)
    {
      hide PolkitListener.Data, Env.Valid, PolkitListener.States, ApplyOne, Agent.Data, PolkitListener.Valid, Agent.Valid;
      KnownState(state);
      if !state.inProgress {
        return;
      }
      var gained := state.gainedAuth;
      if gained || state.cancelled {
        FinishFor(agent, state);
        TellComplete(agent, state.cookie, gained, env);
      } else if state.retryCount + 1 < MAX_AUTH_RETRIES {
        StartOverFor(agent, state);
      } else {
        FinishFor(agent, state);
        GiveUp(agent, state.cookie, env);
      }
    }

    /** Table changes leave the agent alone. */
    method FinishFor(ghost agent: Agent, state: SessionState)
      requires Valid() && Known(state)
      modifies this, state
      ensures Valid() && Objects() <= old(Objects())
      ensures state.cookie in old(Data()).states && Data() == old(Data()).Finish(state.cookie)
      ensures agent.Data() == old(agent.Data())
    {
      KnownState(state);
      Finish(state);
    }

    method StartOverFor(ghost agent: Agent, state: SessionState)
      requires Valid() && Known(state)
      modifies this`sessionToState, this`nextAttempt, this`started, state
      ensures Valid() && state.cookie in old(Data()).states && Data() == old(Data()).Retry(state.cookie)
      ensures agent.Data() == old(agent.Data())
    {
      hide PolkitListener.Data, PolkitListener.States, PolkitTables.Retry;
      StartOver(state);
    }

    method Cancel(agent: Agent, state: SessionState, env: Env)
      requires Valid() && Known(state) && agent.Valid() && env.Valid()
      modifies this, Objects(), agent.Owned()
      ensures Valid() && Objects() <= old(Objects()) && agent.Valid() && agent.store.Objects() <= old(agent.store.Objects())
      ensures state.cookie in old(Data()).states
      ensures var (t, ops) := old(Data()).Cancel(state.cookie);
              Data() == t && agent.Data() == Apply(old(agent.Data()), ops, env)
    {
      KnownState(state);
      NoteCancelled(agent, state, true);
      FinishAuth(agent, state, env);
    }

    method CancelPending(agent: Agent, cookie: Id, env: Env)
      requires Valid() && agent.Valid() && env.Valid()
      modifies this, Objects(), agent.Owned()
      ensures Valid() && Objects() <= old(Objects()) && agent.Valid() && agent.store.Objects() <= old(agent.store.Objects())
      ensures var (t, ops) := old(Data()).CancelPending(cookie);
              Data() == t && agent.Data() == Apply(old(agent.Data()), ops, env)
    {
      if cookie in cookieToState {
        Cancel(agent, cookieToState[cookie], env);
      }
    }

    /** Cancels everything in a snapshot of the table. */
    method CancelAuthentication(agent: Agent, env: Env)
      requires Valid() && agent.Valid() && env.Valid()
      modifies this, Objects(), agent.Owned()
      ensures Valid() && Objects() <= old(Objects()) && agent.Valid() && agent.store.Objects() <= old(agent.store.Objects())
      ensures var (t, ops) := old(Data()).CancelEach(env.idOrder(old(Data()).states.Keys));
              Data() == t && agent.Data() == Apply(old(agent.Data()), ops, env)
    {
      assert Data().states.Keys == cookieToState.Keys;
      var cookies := env.idOrder(cookieToState.Keys);
      ghost var (t, ops) := Data().CancelEach(cookies);
      ghost var goal := Apply(agent.Data(), ops, env);
      for i := 0 to |cookies|
        invariant Valid() && Objects() <= old(Objects()) && agent.Valid() && agent.store.Objects() <= old(agent.store.Objects())
        invariant Data().CancelEach(cookies[i..]).0 == t
        invariant Apply(agent.Data(), Data().CancelEach(cookies[i..]).1, env) == goal
      {
        CancelNext(agent.Data(), Data(), cookies, i, env);
        CancelPending(agent, cookies[i], env);
      }
    }

    method SubmitPassword(cookie: Id, secret: string)
      modifies this`submitted
      ensures Data() == old(Data()).Submit(cookie, secret)
      ensures Valid() == old(Valid()) && Objects() == old(Objects())
    {
      if cookie in cookieToState {
        submitted := submitted + [Submission(cookieToState[cookie].session, secret)];
      }
      assert States() == old(States()) && Attempts() == old(Attempts());
    }

    lemma Reached(attempt: Attempting)
      requires Valid() && attempt in sessionToState
      ensures var id := sessionToState[attempt].cookie;
              Known(sessionToState[attempt]) && attempt in Data().attempts && Data().attempts[attempt] == id && id in Data().states
    {
    }

    lemma Unreached(attempt: Attempting)
      requires attempt !in sessionToState
      ensures attempt !in Data().attempts
    {
    }

    method SetPrompt(state: SessionState, prompt: string, echo: bool)
      requires Valid() && Known(state)
      modifies state`prompt, state`echoOn, state`requestSent
      ensures Valid() && Known(state) && state.cookie in old(Data()).states
      ensures var d, id := old(Data()), state.cookie; Data() == d.(states := d.states[id := d.states[id].(prompt := prompt, echoOn := echo, requestSent := true)])
    {
      KnownState(state);
      state.prompt, state.echoOn, state.requestSent := prompt, echo, true;
      OnlyOne(state);
    }

    method NotePrompt(ghost agent: Agent, state: SessionState, prompt: string, echo: bool)
      requires Valid() && Known(state)
      modifies state`prompt, state`echoOn, state`requestSent
      ensures Valid() && Known(state) && state.cookie in old(Data()).states && agent.Data() == old(agent.Data())
      ensures var d, id := old(Data()), state.cookie; Data() == d.(states := d.states[id := d.states[id].(prompt := prompt, echoOn := echo, requestSent := true)])
    {
      SetPrompt(state, prompt, echo);
    }

    method SetError(state: SessionState, text: string)
      requires Valid() && Known(state)
      modifies state`errorText
      ensures Valid() && Known(state) && state.cookie in old(Data()).states
      ensures var d, id := old(Data()), state.cookie; Data() == d.(states := d.states[id := d.states[id].(errorText := text)])
    {
      KnownState(state);
      state.errorText := text;
      OnlyOne(state);
    }

    method NoteError(ghost agent: Agent, state: SessionState, text: string)
      requires Valid() && Known(state)
      modifies state`errorText
      ensures Valid() && Known(state) && state.cookie in old(Data()).states && agent.Data() == old(agent.Data())
      ensures var d, id := old(Data()), state.cookie; Data() == d.(states := d.states[id := d.states[id].(errorText := text)])
    {
      SetError(state, text);
    }

    method SetGained(state: SessionState, gained: bool)
      requires Valid() && Known(state)
      modifies state`gainedAuth
      ensures Valid() && Known(state) && state.cookie in old(Data()).states
      ensures var d, id := old(Data()), state.cookie; Data() == d.(states := d.states[id := d.states[id].(gainedAuth := gained)])
    {
      KnownState(state);
      state.gainedAuth := gained;
      OnlyOne(state);
    }

    method NoteGained(ghost agent: Agent, state: SessionState, gained: bool)
      requires Valid() && Known(state)
      modifies state`gainedAuth
      ensures Valid() && Known(state) && state.cookie in old(Data()).states && agent.Data() == old(agent.Data())
      ensures var d, id := old(Data()), state.cookie; Data() == d.(states := d.states[id := d.states[id].(gainedAuth := gained)])
    {
      SetGained(state, gained);
    }

    method SetCancelled(state: SessionState, value: bool)
      requires Valid() && Known(state)
      modifies state`cancelled
      ensures Valid() && Known(state) && state.cookie in old(Data()).states
      ensures var d, id := old(Data()), state.cookie; Data() == d.(states := d.states[id := d.states[id].(cancelled := value)])
    {
      KnownState(state);
      state.cancelled := value;
      OnlyOne(state);
    }

    method NoteCancelled(ghost agent: Agent, state: SessionState, value: bool)
      requires Valid() && Known(state)
      modifies state`cancelled
      ensures Valid() && Known(state) && state.cookie in old(Data()).states && agent.Data() == old(agent.Data())
      ensures var d, id := old(Data()), state.cookie; Data() == d.(states := d.states[id := d.states[id].(cancelled := value)])
    {
      SetCancelled(state, value);
    }

    method OnSessionRequest(agent: Agent, attempt: Attempting, prompt: string, echo: bool, env: Env)
      requires Valid() && agent.Valid()
      modifies Objects(), agent.Owned()
      ensures Valid() && agent.Valid() && agent.store.Objects() == old(agent.store.Objects())
      ensures var (t, ops) := old(Data()).OnRequest(attempt, prompt, echo);
              Data() == t && agent.Data() == Apply(old(agent.Data()), ops, env)
    {
      if attempt !in sessionToState {
        return;
      }
      var state := sessionToState[attempt];
      Reached(attempt);
      NotePrompt(agent, state, prompt, echo);
      TellPrompt(agent, state.cookie, prompt, echo, env);
    }

    method OnSessionError(agent: Agent, attempt: Attempting, text: string, env: Env)
      requires Valid() && agent.Valid()
      modifies Objects(), agent.Owned()
      ensures Valid() && agent.Valid() && agent.store.Objects() == old(agent.store.Objects())
      ensures var (t, ops) := old(Data()).OnError(attempt, text);
              Data() == t && agent.Data() == Apply(old(agent.Data()), ops, env)
    {
      if attempt !in sessionToState {
        return;
      }
      var state := sessionToState[attempt];
      Reached(attempt);
      NoteError(agent, state, text);
      TellRetry(agent, state.cookie, text, env);
    }

    method OnSessionInfo(agent: Agent, attempt: Attempting, text: string, env: Env)
      requires Valid() && agent.Valid()
      modifies agent.Owned()
      ensures Valid() && agent.Valid() && agent.store.Objects() == old(agent.store.Objects())
      ensures var (t, ops) := old(Data()).OnInfo(attempt, text);
              Data() == t && agent.Data() == Apply(old(agent.Data()), ops, env)
    {
      if attempt !in sessionToState {
        return;
      }
      Reached(attempt);
      TellInfo(agent, sessionToState[attempt].cookie, text, env);
    }

    method OnSessionCompleted(agent: Agent, attempt: Attempting, gained: bool, env: Env)
      requires Valid() && agent.Valid() && env.Valid()
      modifies this, Objects(), agent.Owned()
      ensures Valid() && Objects() <= old(Objects()) && agent.Valid() && agent.store.Objects() <= old(agent.store.Objects())
      ensures var (t, ops) := old(Data()).OnCompleted(attempt, gained);
              Data() == t && agent.Data() == Apply(old(agent.Data()), ops, env)
    {
      hide PolkitListener.Data, Agent.Data, Noted, PolkitListener.States;
      if attempt !in sessionToState {
        Unreached(attempt);
        return;
      }
      var state := sessionToState[attempt];
      Reached(attempt);
      CompletedIs(agent.Data(), Data(), attempt, gained, env);
      NoteOutcome(agent, state, gained, env);
      FinishAuth(agent, state, env);
    }

    method NoteOutcome(agent: Agent, state: SessionState, gained: bool, env: Env)
      requires Valid() && Known(state) && agent.Valid()
      modifies state`gainedAuth, state`errorText, agent.Owned()
      ensures Valid() && agent.Valid() && agent.store.Objects() == old(agent.store.Objects())
      ensures state.cookie in old(Data()).states && Data() == Noted(old(Data()), state.cookie, gained)
      ensures agent.Data() == if gained then old(agent.Data())
                              else Apply(old(agent.Data()), [DoError(state.cookie, "Authentication failed")], env)
    {
      NoteGained(agent, state, gained);
      if !gained {
        NoteError(agent, state, "Authentication failed");
        TellRetry(agent, state.cookie, "Authentication failed", env);
      }
    }

    method TellCreate(agent: Agent, id: Id, context: Context, env: Env) returns (created: bool)
      requires Valid() && agent.Valid()
      modifies agent.Owned()
      ensures Valid() && Data() == old(Data()) && agent.Valid() && fresh(agent.store.Objects() - old(agent.store.Objects()))
      ensures created == (id !in old(agent.Data()).store) && unchanged(this)
      ensures agent.Data() == if created then Apply(old(agent.Data()), [DoCreate(id, Polkit, context)], env) else old(agent.Data())
    {
      hide Agent.Data;
      ApplySingle(agent.Data(), DoCreate(id, Polkit, context), env);
      created := agent.CreateSession(id, Polkit, context, env);
      Untouched();
    }

    method EnterFor(ghost agent: Agent, cookie: Id, result: AsyncResult) returns (state: SessionState)
      requires Valid() && cookie !in cookieToState
      modifies this
      ensures Valid() && fresh(Objects() - old(Objects())) && Known(state) && state.cookie == cookie && state.result == result && fresh(state)
      ensures Data() == old(Data()).Begin(cookie, result).(started := old(Data()).started) && agent.Data() == old(agent.Data())
      ensures agent.store.Objects() == old(agent.store.Objects()) && agent.Valid() == old(agent.Valid())
    {
      hide PolkitListener.Data, PolkitTables.Begin;
      state := Enter(cookie, result);
    }

    /** The agent has rejected the request just entered. */
    method Withdraw(ghost agent: Agent, state: SessionState, ghost before: PolkitTables)
      requires Valid() && Known(state) && before.nextAttempt !in before.attempts && state.cookie !in before.states
      requires Data() == before.Begin(state.cookie, state.result).(started := before.started)
      modifies this
      ensures Valid() && Objects() <= old(Objects())
      ensures Data() == before.Reject(state.result).(nextAttempt := before.nextAttempt + 1) && agent.Data() == old(agent.Data())
      ensures agent.store.Objects() == old(agent.store.Objects()) && agent.Valid() == old(agent.Valid())
    {
      KnownState(state);
      WithdrawIs(before, state.cookie, state.result);
      RemoveFor(agent, state);
      Reject(agent, state.result);
    }

    method RemoveFor(ghost agent: Agent, state: SessionState)
      requires Valid() && Known(state)
      modifies this`cookieToState, this`sessionToState
      ensures Valid() && Objects() <= old(Objects()) && agent.Data() == old(agent.Data())
      ensures state.cookie in old(Data()).states && Data() == Dropped(old(Data()), state.cookie)
    {
      KnownState(state);
      Remove(state);
    }

    method ReattemptFor(ghost agent: Agent, state: SessionState)
      requires Valid() && Known(state)
      modifies state`cancelled, this`started
      ensures Valid() && state.cookie in old(Data()).states && Data() == Restarted(old(Data()), state.cookie)
      ensures agent.Data() == old(agent.Data()) && agent.Valid() == old(agent.Valid())
      ensures agent.store.Objects() == old(agent.store.Objects()) && Objects() == old(Objects())
    {
      hide PolkitListener.Data;
      Reattempt(state);
    }

    method Reject(ghost agent: Agent, result: AsyncResult)
      requires Valid()
      modifies this`completed
      ensures Valid() && Data() == old(Data()).Reject(result) && agent.Data() == old(agent.Data())
    {
      completed := completed + [result];
      assert States() == old(States()) && Attempts() == old(Attempts());
    }

    /** A request without an identity, or under a cookie in use, is completed at once and never started. */
    method InitiateAuthentication(agent: Agent, cookie: Id, hasIdentity: bool, result: AsyncResult, context: Context, env: Env)
      requires Valid() && agent.Valid()
      modifies this, Objects(), agent.Owned()
      ensures Valid() && fresh(Objects() - old(Objects())) && agent.Valid() && fresh(agent.store.Objects() - old(agent.store.Objects()))
      ensures var (t, ops) := old(Data()).Initiate(old(agent.Data()).store, cookie, hasIdentity, result, context);
              Data() == t && agent.Data() == Apply(old(agent.Data()), ops, env)
    {
      if cookie in cookieToState || !hasIdentity {
        Reject(agent, result);
        return;
      }
      Start(agent, cookie, result, context, env);
    }

    method Propose(agent: Agent, cookie: Id, result: AsyncResult, context: Context, env: Env) returns (state: SessionState, created: bool)
      requires Valid() && agent.Valid() && cookie !in cookieToState
      modifies this, agent.Owned()
      ensures Valid() && fresh(Objects() - old(Objects())) && Known(state) && state.cookie == cookie && state.result == result && fresh(state)
      ensures agent.Valid() && fresh(agent.store.Objects() - old(agent.store.Objects()))
      ensures Data() == old(Data()).Begin(cookie, result).(started := old(Data()).started)
      ensures created == (cookie !in old(agent.Data()).store)
      ensures agent.Data() == if created then Apply(old(agent.Data()), [DoCreate(cookie, Polkit, context)], env) else old(agent.Data())
    {
      hide Agent.Data;
      state := EnterFor(agent, cookie, result);
      ghost var objects := agent.store.Objects();
      created := TellCreate(agent, cookie, context, env);
      assert fresh(agent.store.Objects() - objects);
    }

    method Start(agent: Agent, cookie: Id, result: AsyncResult, context: Context, env: Env)
      requires Valid() && agent.Valid() && cookie !in cookieToState
      modifies this, Objects(), agent.Owned()
      ensures Valid() && fresh(Objects() - old(Objects())) && agent.Valid() && fresh(agent.store.Objects() - old(agent.store.Objects()))
      ensures var d, c := old(Data()), old(agent.Data());
              if cookie in c.store then Data() == d.Reject(result).(nextAttempt := d.nextAttempt + 1) && agent.Data() == c
              else Data() == d.Begin(cookie, result) && agent.Data() == Apply(c, [DoCreate(cookie, Polkit, context)], env)
    {
      hide Apply, Agent.Data;
      ghost var d := Data();
      assert d.nextAttempt !in d.attempts && cookie !in d.states;
      BeginIs(d, cookie, result);
      var state, created := Propose(agent, cookie, result, context, env);
      if created {
        ReattemptFor(agent, state);
      } else {
        Withdraw(agent, state, d);
      }
    }
  }
}
