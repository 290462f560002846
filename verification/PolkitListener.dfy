/** Polkit requests: up to three authentication attempts each, and one completion of the caller's result. */
module PolkitListeners {
  import opened Base
  import opened Sessions
  import opened Environments
  import opened AgentCore

  const MAX_AUTH_RETRIES: nat := 3

  /** A polkit authentication session, and the asynchronous result of a polkit request: both by identity. */
  type Attempting = nat
  type AsyncResult = nat

  datatype PolkitState = PolkitState(
    cookie: Id, attempt: Attempting, result: AsyncResult, retryCount: nat,
    gainedAuth: bool, cancelled: bool, inProgress: bool,
    prompt: string, echoOn: bool, errorText: string, requestSent: bool)

  datatype Submission = Submission(attempt: Attempting, secret: string)

  /** `completed` lists the results completed so far, `started` the result of each attempt initiated,
      `submitted` the secrets given to polkit. */
  datatype PolkitTables = PolkitTables(
    states: map<Id, PolkitState>,
    attempts: map<Attempting, Id>,
    nextAttempt: Attempting,
    completed: seq<AsyncResult>,
    started: seq<AsyncResult>,
    submitted: seq<Submission>)
  {
    function Reject(result: AsyncResult): PolkitTables {
      this.(completed := completed + [result])
    }

    function Begin(cookie: Id, result: AsyncResult): PolkitTables {
      this.(states := states[cookie := PolkitState(cookie, nextAttempt, result, 0, false, false, true, "", false, "", false)],
            attempts := attempts[nextAttempt := cookie],
            nextAttempt := nextAttempt + 1,
            started := started + [result])
    }

    /** A failed attempt is dropped and a new one started for the same request. */
    function Retry(cookie: Id): PolkitTables
      requires cookie in states
    {
      var s := states[cookie];
      this.(states := states[cookie := s.(retryCount := s.retryCount + 1, attempt := nextAttempt, cancelled := false)],
            attempts := (attempts - {s.attempt})[nextAttempt := cookie],
            nextAttempt := nextAttempt + 1,
            started := started + [s.result])
    }

    function Finish(cookie: Id): PolkitTables
      requires cookie in states
    {
      var s := states[cookie];
      this.(states := states - {cookie}, attempts := attempts - {s.attempt}, completed := completed + [s.result])
    }

    /** `finishAuth` */
    function FinishAuth(cookie: Id): (PolkitTables, seq<Op>)
      requires cookie in states
    {
      var s := states[cookie];
      if !s.inProgress then (this, [])
      else if s.gainedAuth || s.cancelled then (Finish(cookie), [DoComplete(cookie, s.gainedAuth)])
      else if s.retryCount + 1 < MAX_AUTH_RETRIES then (Retry(cookie), [])
      else (Finish(cookie), [DoError(cookie, "Too many failed attempts"), DoComplete(cookie, false)])
    }

    function Cancel(cookie: Id): (PolkitTables, seq<Op>)
      requires cookie in states
    {
      this.(states := states[cookie := states[cookie].(cancelled := true)]).FinishAuth(cookie)
    }

    /** `cancelPending` */
    function CancelPending(cookie: Id): (PolkitTables, seq<Op>) {
      if cookie in states then Cancel(cookie) else (this, [])
    }

    /** `cancelAuthentication`, over a snapshot of the table. */
    function CancelEach(cookies: seq<Id>): (PolkitTables, seq<Op>)
      decreases |cookies|
    {
      if cookies == [] then (this, [])
      else
        var (t, ops) := CancelPending(cookies[0]);
        var (r, rest) := t.CancelEach(cookies[1..]);
        (r, ops + rest)
    }

    /** `initiateAuthentication` */
    function Initiate(store: map<Id, SessionData>, cookie: Id, hasIdentity: bool, result: AsyncResult, context: Context)
      : (PolkitTables, seq<Op>)
    {
      if cookie in states || !hasIdentity then (Reject(result), [])
      else if cookie in store then (Reject(result).(nextAttempt := nextAttempt + 1), [])
      else (Begin(cookie, result), [DoCreate(cookie, Polkit, context)])
    }

    // -- signals of an attempt; those of a dropped attempt find no state

    function OnRequest(attempt: Attempting, prompt: string, echo: bool): (PolkitTables, seq<Op>) {
      if attempt !in attempts || attempts[attempt] !in states then (this, [])
      else
        var cookie := attempts[attempt];
        (this.(states := states[cookie := states[cookie].(prompt := prompt, echoOn := echo, requestSent := true)]),
         [DoPrompt(cookie, prompt, echo)])
    }

    function OnCompleted(attempt: Attempting, gained: bool): (PolkitTables, seq<Op>) {
      if attempt !in attempts || attempts[attempt] !in states then (this, [])
      else
        var cookie := attempts[attempt];
        var s := states[cookie].(gainedAuth := gained, errorText := if gained then states[cookie].errorText else "Authentication failed");
        var (t, ops) := this.(states := states[cookie := s]).FinishAuth(cookie);
        (t, (if gained then [] else [DoError(cookie, "Authentication failed")]) + ops)
    }

    function OnError(attempt: Attempting, text: string): (PolkitTables, seq<Op>) {
      if attempt !in attempts || attempts[attempt] !in states then (this, [])
      else
        var cookie := attempts[attempt];
        (this.(states := states[cookie := states[cookie].(errorText := text)]), [DoError(cookie, text)])
    }

    function OnInfo(attempt: Attempting, text: string): (PolkitTables, seq<Op>) {
      if attempt !in attempts || attempts[attempt] !in states then (this, [])
      else (this, [DoInfo(attempts[attempt], text)])
    }

    /** `submitPassword` */
    function Submit(cookie: Id, secret: string): PolkitTables {
      if cookie !in states then this
      else this.(submitted := submitted + [Submission(states[cookie].attempt, secret)])
    }
  }

  const NO_REQUESTS := PolkitTables(map[], map[], 0, [], [], [])

  function PolkitContext(message: string, actionId: string, user: string, env: Env): Context {
    var actor := if env.actor.name == "" then env.actor.(name := "Unknown", fallbackLetter := "?", fallbackKey := "unknown") else env.actor;
    Context(message, actor, actionId, user, "", "", "", 0, 3, false, false)
  }
}
