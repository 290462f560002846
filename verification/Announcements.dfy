/** What the user gets to see: the sessions after each input, and the events it routes, from the state before. */
module Announcements {
  import opened Base
  import opened Sessions
  import opened Environments
  import opened ProviderRegistries
  import opened AgentCore
  import opened CoreInvariants
  import opened KeyringManagers
  import opened PinentryManagers
  import opened PolkitListeners
  import opened Daemons
  import opened HandlerCalls
  import opened TableAgreement
  import opened Bulletins
  import opened PolkitSteps

  /** The retry counts that a pinentry request shows: those stated in its description, else those last seen for its key;
      a limit that is not positive is three. */
  function Counts(p: PinTables, msg: PinentryMessage): (nat, nat) {
    var (cur, max) := if msg.attempts.Some? then msg.attempts.value
                      else if msg.keyinfo != "" && msg.keyinfo in p.retryInfo then p.retryInfo[msg.keyinfo]
                      else (0, 3);
    (if cur > 0 then cur else 0, if max > 0 then max else 3)
  }

  /** A pinentry request: first the failure of the answer before it, then the prompt, then the error it reports itself,
      unless that was reported as a retry. */
  function Requested(d: Daemon, pid: Pid, msg: PinentryMessage, env: Env): Board {
    var b := BoardOf(d.core);
    var id := if msg.cookie == "" then env.uuid else msg.cookie;
    var prompt := if msg.prompt == "" then "Enter passphrase:" else msg.prompt;
    var (cur, max) := Counts(d.pinentry, msg);
    if id in d.pinentry.owners && d.pinentry.owners[id] != pid then b
    else
      var b1 := if id in d.pinentry.awaiting then b.Complain(id, if msg.error == "" then "Authentication failed" else msg.error) else b;
      var b2 := if id in b.store then
                  var s := b1.store[id];
                  b1.Show(s.(context := if s.source == Pinentry then s.context.(curRetry := cur, maxRetries := max) else s.context,
                             prompt := prompt, echo := false, info := "", closed := false))
                else
                  b1.Open(id, Pinentry,
                          Context(prompt, env.actor.(pid := pid), "", "", "", msg.description, msg.keyinfo, cur, max, msg.confirmOnly, msg.repeat),
                          PinentryDetails(msg.description, msg.keyinfo, cur, max, msg.confirmOnly, msg.repeat))
                  .Prompt(id, prompt, false);
      if msg.error != "" && id !in d.pinentry.reported then b2.Complain(id, msg.error) else b2
  }

  function EndEach(b: Board, ids: seq<Id>): Board
    decreases |ids|
  {
    if ids == [] then b else EndEach(b.End(ids[0], Cancelled), ids[1..])
  }

  /** Pinentry sessions whose requester is gone. */
  function AbandonEach(b: Board, ids: seq<Id>): Board
    decreases |ids|
  {
    if ids == [] then b
    else AbandonEach(if IsPinentry(b.store, ids[0]) then b.Complain(ids[0], "Pinentry disconnected").End(ids[0], Cancelled) else b, ids[1..])
  }

  function Resulted(d: Daemon, pid: Pid, id: Id, word: ResultWord, error: string): Board {
    var b := BoardOf(d.core);
    var failure := if error == "" then "Authentication failed" else error;
    if id == "" || (id in d.pinentry.owners && d.pinentry.owners[id] != pid) || !IsPinentry(b.store, id) then b
    else match word
      case SaysSuccess => b.End(id, Success)
      case SaysRetry => b.Complain(id, failure)
      case SaysCancelled => b.End(id, Cancelled)
      case SaysError => b.Complain(id, failure).End(id, Error)
      case SaysOther => b
  }

  /** The attempt belongs to a request in progress. */
  predicate Heard(q: PolkitTables, attempt: Attempting) {
    attempt in q.attempts && q.attempts[attempt] in q.states
  }

  function Concluded(b: Board, q: PolkitTables, attempt: Attempting, gained: bool): Board
    requires Heard(q, attempt)
  {
    var id := q.attempts[attempt];
    if gained then b.End(id, Success)
    else if q.states[id].retryCount < 2 then b.Complain(id, "Authentication failed")
    else b.Complain(id, "Authentication failed").Complain(id, "Too many failed attempts").End(id, Cancelled)
  }

  /** The sessions and the routed events after one input. */
  function BoardNext(d: Daemon, input: Input, env: Env): Board
  {
    var b, q := BoardOf(d.core), d.polkit;
    match input
    case KeyringInput(s, pid, msg) =>
      var id := if msg.cookie == "" then env.uuid else msg.cookie;
      var title := if msg.title.Some? then msg.title.value else msg.prompt;
      if id in b.store then b
      else b.Open(id, Keyring, Context(title, env.actor.(pid := pid), "", "", msg.message, "", "", 0, 3, false, false), KeyringDetails(msg.message))
           .Prompt(id, msg.message, false)
    case PinentryInput(s, pid, msg) => Requested(d, pid, msg, env)
    case ResultInput(s, pid, id, word, error) => Resulted(d, pid, id, word, error)
    case RespondInput(s, id, response) => if d.core.registry.Authorizes(s) && id in d.keyring then b.End(id, Success) else b
    case CancelInput(s, id) =>
      if d.core.registry.Authorizes(s)
         && (id in d.keyring || IsPinentry(b.store, id) || (id in q.states && id !in d.pinentry.pending && id !in d.pinentry.awaiting))
      then b.End(id, Cancelled)
      else b
    case DisconnectInput(s) =>
      AbandonEach(EndEach(b, Only(env.idOrder(d.keyring.Keys), KeyringOwned(d.keyring, s))),
                  Only(env.idOrder(d.pinentry.pending.Keys), PinentryOwned(d.pinentry, s)))
    case OutcomeTimer(timer) =>
      if timer in d.pinentry.timers && IsPinentry(b.store, d.pinentry.timers[timer])
      then b.Complain(d.pinentry.timers[timer], "Pinentry did not report terminal result").End(d.pinentry.timers[timer], Error)
      else b
    case PolkitInitiate(cookie, hasIdentity, result, message, actionId, user) =>
      var actor := if env.actor.name == "" then env.actor.(name := "Unknown", fallbackLetter := "?", fallbackKey := "unknown") else env.actor;
      if !hasIdentity || cookie in b.store then b
      else b.Open(cookie, Polkit, Context(message, actor, actionId, user, "", "", "", 0, 3, false, false), PolkitDetails(actionId, user))
    case PolkitRequest(attempt, prompt, echo) => if Heard(q, attempt) then b.Prompt(q.attempts[attempt], prompt, echo) else b
    case PolkitCompleted(attempt, gained) => if Heard(q, attempt) then Concluded(b, q, attempt, gained) else b
    case PolkitError(attempt, text) => if Heard(q, attempt) then b.Complain(q.attempts[attempt], text) else b
    case PolkitInfo(attempt, text) => if Heard(q, attempt) then b.Inform(q.attempts[attempt], text) else b
    case PolkitCancelAll => EndEach(b, env.idOrder(q.states.Keys))
    case _ => b
  }

  // ---- requests

  lemma CountsResolve(p: PinTables, r: PinentryRequest, msg: PinentryMessage)
    requires r.attempts == msg.attempts && r.keyinfo == msg.keyinfo
    ensures (p.ResolveRetry(r).1, p.ResolveRetry(r).2) == Counts(p, msg) && p.ResolveRetry(r).2 > 0
  {
  }

  lemma AroundOne(b: Board, xs: seq<Op>, op: Op, ys: seq<Op>)
    ensures BoardAfterAll(b, xs + [op] + ys) == BoardAfterAll(BoardAfter(BoardAfterAll(b, xs), op), ys)
  {
    hide BoardAfter, BoardAfterAll;
    BoardConcat(b, xs + [op], ys);
    BoardConcat(b, xs, [op]);
    BoardSingle(BoardAfterAll(b, xs), op);
  }

  lemma MaybeComplain(b: Board, id: Id, error: string, now: bool)
    ensures BoardAfterAll(b, if now then [DoError(id, error)] else []) == if now then b.Complain(id, error) else b
  {
    hide Board.Complain;
    BoardSingle(b, DoError(id, error));
  }

  lemma PinentryBoard(d: Daemon, s: Socket, pid: Pid, msg: PinentryMessage, env: Env)
    ensures BoardAfterAll(BoardOf(d.core), EffectOf(d, PinentryInput(s, pid, msg), env).ops) == Requested(d, pid, msg, env)
  {
    hide BoardAfterAll, BoardAfter, PinTables.ResolveRetry, PinTables.Pended, Board.Complain, Board.Show, Board.Open, Counts, Board.Prompt;
    var t, b := d.pinentry, BoardOf(d.core);
    var r := ParsePinentry(msg, s, pid, env);
    var id := r.cookie;
    CountsResolve(t, r, msg);
    if t.OwnedByOther(id, pid) {
      BoardUntouched(b, []);
    } else {
      var (_, cur, max) := t.ResolveRetry(r);
      var retried := if id in t.awaiting then [DoError(id, OrFailed(r.error))] else [];
      var prompting := if id in d.core.store then DoReprompt(id, cur, max, r.prompt)
                       else DoOpen(id, Pinentry, PinentryContext(r, cur, max, env), r.prompt, false);
      var complained := if r.error != "" && id !in t.reported then [DoError(id, r.error)] else [];
      AroundOne(b, retried, prompting, complained);
      MaybeComplain(b, id, OrFailed(r.error), id in t.awaiting);
      var b1 := if id in t.awaiting then b.Complain(id, OrFailed(r.error)) else b;
      ComplainKeepsSource(b, id, OrFailed(r.error));
      PromptingBoard(b1, r, cur, max, env);
      MaybeComplain(BoardAfter(b1, prompting), id, r.error, r.error != "" && id !in t.reported);
    }
  }

  lemma ComplainKeepsSource(b: Board, id: Id, error: string)
    ensures id in b.Complain(id, error).store <==> id in b.store
  {
  }

  lemma PromptingBoard(b: Board, r: PinentryRequest, cur: nat, max: nat, env: Env)
    requires max > 0
    ensures var op := if r.cookie in b.store then DoReprompt(r.cookie, cur, max, r.prompt)
                      else DoOpen(r.cookie, Pinentry, PinentryContext(r, cur, max, env), r.prompt, false);
            BoardAfter(b, op) ==
            if r.cookie in b.store then
              var s := b.store[r.cookie];
              b.Show(s.(context := if s.source == Pinentry then s.context.(curRetry := cur, maxRetries := max) else s.context,
                        prompt := r.prompt, echo := false, info := "", closed := false))
            else
              b.Open(r.cookie, Pinentry,
                     Context(r.prompt, env.actor.(pid := r.pid), "", "", "", r.description, r.keyinfo, cur, max, r.confirmOnly, r.repeat),
                     PinentryDetails(r.description, r.keyinfo, cur, max, r.confirmOnly, r.repeat))
              .Prompt(r.cookie, r.prompt, false)
  {
    hide Board.Show, Board.Open, Board.Prompt;
  }

  // ---- endings

  lemma ResultBoard(d: Daemon, s: Socket, pid: Pid, id: Id, word: ResultWord, error: string, env: Env)
    ensures BoardAfterAll(BoardOf(d.core), EffectOf(d, ResultInput(s, pid, id, word, error), env).ops) == Resulted(d, pid, id, word, error)
  {
    hide BoardAfterAll, Board.Complain, Board.End, PinTables.Forget, PinTables.CleanupAwaiting;
    var b := BoardOf(d.core);
    var (_, ops, reply) := PinentryHandleResult(d.pinentry, d.core.store, id, pid, word, error);
    var all := ops + [Say(s, reply)];
    if ops == [] {
      BoardUntouched(b, all);
    } else {
      BoardFirst(b, all);
    }
  }

  /** The calls about the session come first; the rest is messages. */
  lemma BoardFirst(b: Board, ops: seq<Op>)
    requires ops != [] && forall i :: 1 <= i < |ops| ==> LeavesStore(ops[i])
    ensures BoardAfterAll(b, ops) == BoardAfter(b, ops[0])
  {
    hide BoardAfter, BoardAfterAll, LeavesStore;
    assert ops == [ops[0]] + ops[1..];
    BoardConcat(b, [ops[0]], ops[1..]);
    BoardSingle(b, ops[0]);
    BoardUntouched(BoardAfter(b, ops[0]), ops[1..]);
  }

  lemma RespondBoard(d: Daemon, s: Socket, id: Id, response: string)
    ensures BoardAfterAll(BoardOf(d.core), Respond(d, s, id, response).ops) ==
            if d.core.registry.Authorizes(s) && id in d.keyring then BoardOf(d.core).End(id, Success) else BoardOf(d.core)
  {
    hide BoardAfterAll, Board.End, PinTables.Answered, PolkitTables.Submit, Registry.Authorizes;
    var ops := Respond(d, s, id, response).ops;
    if d.core.registry.Authorizes(s) && id in d.keyring {
      BoardFirst(BoardOf(d.core), ops);
    } else {
      BoardUntouched(BoardOf(d.core), ops);
    }
  }

  lemma CancelledCalls(q: PolkitTables, id: Id)
    requires AttemptInv(q)
    ensures q.CancelPending(id).1 == if id in q.states then [DoComplete(id, false)] else []
    ensures AttemptInv(q.CancelPending(id).0) && q.CancelPending(id).0.states.Keys == q.states.Keys - {id}
  {
  }

  lemma CancelBoard(d: Daemon, s: Socket, id: Id)
    requires DaemonInv(d)
    ensures BoardAfterAll(BoardOf(d.core), Cancel(d, s, id).ops) ==
            if d.core.registry.Authorizes(s)
               && (id in d.keyring || IsPinentry(d.core.store, id)
                   || (id in d.polkit.states && id !in d.pinentry.pending && id !in d.pinentry.awaiting))
            then BoardOf(d.core).End(id, Cancelled)
            else BoardOf(d.core)
  {
    PolkitsOwn(d, id);
    KeyringsOwn(d, id);
    hide DaemonInv, BoardAfter, BoardAfterAll, Board.End, Registry.Authorizes, Daemons.Cancel, LeavesStore, AttemptInv, IsPinentry;
    var b, ops := BoardOf(d.core), Cancel(d, s, id).ops;
    CancelHead(d, s, id);
    BoardFirst(b, ops);
    EndingCalls(b, id);
    if !d.core.registry.Authorizes(s) {
      BoardStays(b, ops[0]);
    } else if id in d.keyring {
    } else if HasRequest(d.pinentry, d.core.store, id) {
    } else if id in d.polkit.states {
    } else {
      BoardStays(b, ops[0]);
    }
  }

  lemma EndingCalls(b: Board, id: Id)
    ensures BoardAfter(b, DoClose(id, Cancelled)) == b.End(id, Cancelled)
    ensures BoardAfter(b, DoComplete(id, false)) == b.End(id, Cancelled)
    ensures BoardAfter(b, DoCloseFlow(id, Cancelled, "")) == if IsPinentry(b.store, id) then b.End(id, Cancelled) else b
  {
    hide Board.End;
  }

  lemma KeyringsOwn(d: Daemon, id: Id)
    requires DaemonInv(d)
    ensures AttemptInv(d.polkit) && (id in d.keyring || id in d.polkit.states ==> !IsPinentry(d.core.store, id))
  {
    PolkitsOwn(d, id);
    hide CoreInv, PinentryInv;
    assert KeyringInv(d.keyring, LiveSessions(d.core.store));
  }

  /** A cancellation begins with the one call that ends the session, if there is one to end. */
  lemma CancelHead(d: Daemon, s: Socket, id: Id)
    requires AttemptInv(d.polkit) && (id in d.polkit.states ==> id in d.core.store && d.core.store[id].source == Polkit)
    ensures var ops := Cancel(d, s, id).ops;
            && ops != [] && (forall i :: 1 <= i < |ops| ==> LeavesStore(ops[i]))
            && (if !d.core.registry.Authorizes(s) then LeavesStore(ops[0])
                else if id in d.keyring then ops[0] == DoClose(id, Cancelled)
                else if HasRequest(d.pinentry, d.core.store, id) then ops[0] == DoCloseFlow(id, Cancelled, "")
                else if id in d.polkit.states then ops[0] == DoComplete(id, false)
                else LeavesStore(ops[0]))
  {
    CancelledCalls(d.polkit, id);
    hide Registry.Authorizes, PinTables.Forget, AttemptInv, PolkitTables.CancelPending;
  }

  lemma {:induction false} CancellationsBoard(b: Board, ids: seq<Id>)
    ensures BoardAfterAll(b, Cancellations(ids)) == EndEach(b, ids)
    decreases |ids|
  {
    hide Board.End;
    if ids != [] {
      assert Cancellations(ids)[1..] == Cancellations(ids[1..]);
      CancellationsBoard(b.End(ids[0], Cancelled), ids[1..]);
    }
  }

  lemma {:induction false} DisconnectionsBoard(b: Board, ids: seq<Id>)
    ensures BoardAfterAll(b, Disconnections(ids)) == AbandonEach(b, ids)
    decreases |ids|
  {
    hide Board.End, Board.Complain;
    if ids != [] {
      assert Disconnections(ids)[1..] == Disconnections(ids[1..]);
      DisconnectionsBoard(BoardAfter(b, DoCloseFlow(ids[0], Cancelled, GONE)), ids[1..]);
    }
  }

  lemma DisconnectBoard(d: Daemon, s: Socket, env: Env)
    ensures BoardAfterAll(BoardOf(d.core), Disconnect(d, s, env).ops) ==
            AbandonEach(EndEach(BoardOf(d.core), Only(env.idOrder(d.keyring.Keys), KeyringOwned(d.keyring, s))),
                        Only(env.idOrder(d.pinentry.pending.Keys), PinentryOwned(d.pinentry, s)))
  {
    hide BoardAfter, BoardAfterAll, PinTables.ForgetAll, EndEach, AbandonEach;
    var b, front := BoardOf(d.core), [DoUnsubscribe(s), DoRemoveProvider(s), DoRemoveWaiter(s)];
    var k, p := Only(env.idOrder(d.keyring.Keys), KeyringOwned(d.keyring, s)), Only(env.idOrder(d.pinentry.pending.Keys), PinentryOwned(d.pinentry, s));
    BoardConcat(b, front + Cancellations(k) + Disconnections(p), [DoEnsure]);
    BoardConcat(b, front + Cancellations(k), Disconnections(p));
    BoardConcat(b, front, Cancellations(k));
    BoardUntouched(b, front);
    CancellationsBoard(b, k);
    DisconnectionsBoard(EndEach(b, k), p);
    BoardUntouched(AbandonEach(EndEach(b, k), p), [DoEnsure]);
  }

  lemma OutcomeBoard(d: Daemon, timer: nat, env: Env)
    ensures BoardAfterAll(BoardOf(d.core), EffectOf(d, OutcomeTimer(timer), env).ops) == BoardNext(d, OutcomeTimer(timer), env)
  {
    hide BoardAfterAll, Board.End, Board.Complain, PinTables.Forget;
    if timer in d.pinentry.timers {
      BoardSingle(BoardOf(d.core), DoCloseFlow(d.pinentry.timers[timer], Error, NO_RESULT));
    } else {
      BoardUntouched(BoardOf(d.core), []);
    }
  }

  // ---- polkit

  lemma ConcludedBoard(b: Board, q: PolkitTables, attempt: Attempting, gained: bool)
    requires AttemptInv(q) && attempt in q.attempts
    ensures BoardAfterAll(b, q.OnCompleted(attempt, gained).1) == Concluded(b, q, attempt, gained)
  {
    hide BoardAfterAll, Board.End, Board.Complain;
    var id := q.attempts[attempt];
    var ops := q.OnCompleted(attempt, gained).1;
    if gained {
      assert ops == [DoComplete(id, true)];
      BoardSingle(b, ops[0]);
    } else if q.states[id].retryCount < 2 {
      assert ops == [DoError(id, "Authentication failed")];
      BoardSingle(b, ops[0]);
    } else {
      assert ops == [] + [DoError(id, "Authentication failed")] + [DoError(id, "Too many failed attempts"), DoComplete(id, false)];
      AroundOne(b, [], DoError(id, "Authentication failed"), [DoError(id, "Too many failed attempts"), DoComplete(id, false)]);
      BoardUntouched(b, []);
      TwoCalls(b.Complain(id, "Authentication failed"), DoError(id, "Too many failed attempts"), DoComplete(id, false));
    }
  }

  lemma TwoCalls(b: Board, first: Op, second: Op)
    ensures BoardAfterAll(b, [first, second]) == BoardAfter(BoardAfter(b, first), second)
  {
    hide BoardAfter, BoardAfterAll;
    assert [first, second] == [first] + [second];
    BoardConcat(b, [first], [second]);
    BoardSingle(b, first);
    BoardSingle(BoardAfter(b, first), second);
  }

  lemma {:induction false} CancelEachBoard(b: Board, q: PolkitTables, ids: seq<Id>)
    requires AttemptInv(q) && Distinct(ids) && forall id :: id in ids ==> id in q.states
    ensures BoardAfterAll(b, q.CancelEach(ids).1) == EndEach(b, ids)
    decreases |ids|
  {
    hide AttemptInv, BoardAfterAll, Board.End, PolkitTables.CancelPending;
    if ids == [] {
      BoardUntouched(b, []);
    } else {
      CancelledCalls(q, ids[0]);
      var t := q.CancelPending(ids[0]).0;
      CancelEachBoard(b.End(ids[0], Cancelled), t, ids[1..]);
      BoardConcat(b, [DoComplete(ids[0], false)], t.CancelEach(ids[1..]).1);
      BoardSingle(b, DoComplete(ids[0], false));
    }
  }

  lemma SignalBoard(d: Daemon, input: Input, env: Env)
    requires env.Valid() && AttemptInv(d.polkit)
    requires input.PolkitRequest? || input.PolkitCompleted? || input.PolkitError? || input.PolkitInfo? || input.PolkitCancelAll?
    ensures BoardAfterAll(BoardOf(d.core), EffectOf(d, input, env).ops) == BoardNext(d, input, env)
  {
    hide BoardAfterAll, EndEach, PolkitTables.CancelEach, PolkitTables.OnCompleted, Concluded, BoardAfter;
    var b, q := BoardOf(d.core), d.polkit;
    if input.PolkitCancelAll? {
      assert Enumerates(env.idOrder(q.states.Keys), q.states.Keys);
      CancelEachBoard(b, q, env.idOrder(q.states.Keys));
    } else if !Heard(q, input.attempt) {
      UnheardCalls(q, input, env);
      BoardUntouched(b, []);
    } else if input.PolkitCompleted? {
      ConcludedBoard(b, q, input.attempt, input.gained);
    } else {
      TouchBoard(d, input, env);
    }
  }

  lemma TouchBoard(d: Daemon, input: Input, env: Env)
    requires (input.PolkitRequest? || input.PolkitError? || input.PolkitInfo?) && Heard(d.polkit, input.attempt)
    ensures BoardAfterAll(BoardOf(d.core), EffectOf(d, input, env).ops) == BoardNext(d, input, env)
  {
    hide BoardAfterAll, Board.Complain, Board.Prompt, Board.Inform;
    var ops := EffectOf(d, input, env).ops;
    BoardSingle(BoardOf(d.core), ops[0]);
    assert ops == [ops[0]];
  }

  lemma UnheardCalls(q: PolkitTables, input: Input, env: Env)
    requires input.PolkitRequest? || input.PolkitCompleted? || input.PolkitError? || input.PolkitInfo?
    requires !Heard(q, input.attempt)
    ensures PolkitEffect(q, map[], input, env) == (q, [])
  {
  }

  lemma InitiateBoard(d: Daemon, input: Input, env: Env)
    requires DaemonInv(d) && input.PolkitInitiate?
    ensures BoardAfterAll(BoardOf(d.core), EffectOf(d, input, env).ops) == BoardNext(d, input, env)
  {
    hide DaemonInv, BoardAfterAll, Board.Open;
    var ops := EffectOf(d, input, env).ops;
    PolkitsOwn(d, input.cookie);
    if ops == [] {
      BoardUntouched(BoardOf(d.core), []);
    } else {
      BoardFirst(BoardOf(d.core), ops);
    }
  }

  lemma KeyringBoard(d: Daemon, s: Socket, pid: Pid, msg: KeyringMessage, env: Env)
    ensures BoardAfterAll(BoardOf(d.core), EffectOf(d, KeyringInput(s, pid, msg), env).ops) == BoardNext(d, KeyringInput(s, pid, msg), env)
  {
    hide BoardAfterAll, Board.Open, Board.Prompt;
    BoardFirst(BoardOf(d.core), EffectOf(d, KeyringInput(s, pid, msg), env).ops);
  }

  lemma StepBoard(d: Daemon, input: Input, env: Env)
    requires env.Valid() && DaemonInv(d)
    ensures BoardAfterAll(BoardOf(d.core), EffectOf(d, input, env).ops) == BoardNext(d, input, env)
  {
    KeyringsOwn(d, "");
    hide DaemonInv, Env.Valid, BoardAfterAll, AttemptInv, EffectOf, BoardNext;
    match input
    case KeyringInput(s, pid, msg) => KeyringBoard(d, s, pid, msg, env);
    case OutcomeTimer(timer) => OutcomeBoard(d, timer, env);
    case PolkitInitiate(_, _, _, _, _, _) => InitiateBoard(d, input, env);
    case _ =>
      if input.PinentryInput? || input.ResultInput? || input.RespondInput? || input.CancelInput? || input.DisconnectInput? {
        PeerBoard(d, input, env);
      } else {
        OtherInputBoard(d, input, env);
      }
  }

  lemma PeerBoard(d: Daemon, input: Input, env: Env)
    requires DaemonInv(d)
    requires input.PinentryInput? || input.ResultInput? || input.RespondInput? || input.CancelInput? || input.DisconnectInput?
    ensures BoardAfterAll(BoardOf(d.core), EffectOf(d, input, env).ops) == BoardNext(d, input, env)
  {
    hide DaemonInv, BoardAfterAll, Requested, Resulted, EndEach, AbandonEach,
      Respond, Daemons.Cancel, Disconnect, PinentryHandleRequest, PinentryHandleResult;
    match input
    case PinentryInput(s, pid, msg) => PinentryBoard(d, s, pid, msg, env);
    case ResultInput(s, pid, id, word, error) => ResultBoard(d, s, pid, id, word, error, env);
    case RespondInput(s, id, response) => RespondBoard(d, s, id, response);
    case CancelInput(s, id) => CancelBoard(d, s, id);
    case DisconnectInput(s) => DisconnectBoard(d, s, env);
  }

  lemma OtherInputBoard(d: Daemon, input: Input, env: Env)
    requires env.Valid() && AttemptInv(d.polkit)
    requires || SingleCall(input) || input.Ping? || input.UnknownType? || input.PolkitRequest? || input.PolkitCompleted? || input.PolkitError?
             || input.PolkitInfo? || input.PolkitCancelAll?
    ensures BoardAfterAll(BoardOf(d.core), EffectOf(d, input, env).ops) == BoardNext(d, input, env)
  {
    hide AttemptInv, Env.Valid, BoardAfterAll;
    if SingleCall(input) || input.Ping? || input.UnknownType? {
      BoardUntouched(BoardOf(d.core), EffectOf(d, input, env).ops);
    } else {
      hide EffectOf, BoardNext;
      SignalBoard(d, input, env);
    }
  }

  /** Every input, exactly: what the sessions are afterwards, field by field, and which events are routed, word for word. */
  lemma StepShows(d: Daemon, input: Input, env: Env)
    requires env.Valid() && DaemonInv(d)
    ensures BoardOf(Handle(d, input, env).core) == BoardNext(d, input, env)
  {
    hide EffectOf, Apply, BoardNext, BoardAfterAll, Env.Valid;
    BoardFollows(d.core, EffectOf(d, input, env).ops, env);
    StepBoard(d, input, env);
  }

  // ---- what a pinentry request shows, event by event

  /** The cookie under which a request is served. */
  function CookieOf(msg: PinentryMessage, env: Env): Id {
    if msg.cookie == "" then env.uuid else msg.cookie
  }

  predicate Admits(d: Daemon, pid: Pid, msg: PinentryMessage, env: Env) {
    CookieOf(msg, env) in d.pinentry.owners ==> d.pinentry.owners[CookieOf(msg, env)] == pid
  }

  /** The first request under a cookie opens a session, prompts, and complains if it reports an error. */
  lemma OpeningRequestPrompts(d: Daemon, s: Socket, pid: Pid, msg: PinentryMessage, env: Env)
    requires env.Valid() && DaemonInv(d) && Admits(d, pid, msg, env) && CookieOf(msg, env) !in d.core.store
    ensures var c, c', id := d.core, Handle(d, PinentryInput(s, pid, msg), env).core, CookieOf(msg, env);
            var prompt, (cur, max) := if msg.prompt == "" then "Enter passphrase:" else msg.prompt, Counts(d.pinentry, msg);
            var complains := msg.error != "" && id !in d.pinentry.reported;
            && c'.store ==
               c.store[id := SessionData(id, Pinentry,
                                         Context(prompt, env.actor.(pid := pid), "", "", "", msg.description, msg.keyinfo, cur, max,
                                                 msg.confirmOnly, msg.repeat),
                                         false, prompt, if complains then msg.error else "", "", false, None)]
            && c'.queue.routed ==
               c.queue.routed
               + [Created(id, Pinentry, prompt, env.actor.(pid := if pid > 0 then pid else 0),
                          PinentryDetails(msg.description, msg.keyinfo, cur, max, msg.confirmOnly, msg.repeat)),
                  Updated(id, prompt, false, Some((cur, max)), "", "")]
               + if complains then [Updated(id, prompt, false, Some((cur, max)), msg.error, "")] else []
  {
    hide Handle, DaemonInv, Counts;
    StepShows(d, PinentryInput(s, pid, msg), env);
  }

  /** A request from a process that does not own the flow shows nothing. */
  lemma RefusedRequestShowsNothing(d: Daemon, s: Socket, pid: Pid, msg: PinentryMessage, env: Env)
    requires env.Valid() && DaemonInv(d) && !Admits(d, pid, msg, env)
    ensures var c, c' := d.core, Handle(d, PinentryInput(s, pid, msg), env).core;
            c'.store == c.store && c'.queue.routed == c.queue.routed
  {
    hide Handle, DaemonInv;
    StepShows(d, PinentryInput(s, pid, msg), env);
  }

  lemma ComplainSight(b: Board, id: Id, error: string)
    requires id in b.store && b.store[id].id == id
    ensures b.Complain(id, error) ==
            Board(b.store[id := b.store[id].(error := error)], b.routed + [Sight(b.store[id].(error := error))])
  {
  }

  /** The session `before` as a request of this content leaves it, its error text aside. */
  function Renewed(before: SessionData, msg: PinentryMessage, counts: (nat, nat)): SessionData {
    before.(prompt := if msg.prompt == "" then "Enter passphrase:" else msg.prompt, echo := false, info := "", closed := false,
            context := if before.source == Pinentry then before.context.(curRetry := counts.0, maxRetries := counts.1) else before.context)
  }

  /** Every later one renews the prompt and the counts, after telling the failure of an answer that awaited its outcome. */
  lemma LaterRequestPrompts(d: Daemon, s: Socket, pid: Pid, msg: PinentryMessage, env: Env)
    requires env.Valid() && DaemonInv(d) && Admits(d, pid, msg, env) && CookieOf(msg, env) in d.core.store
    ensures var c, c', id := d.core, Handle(d, PinentryInput(s, pid, msg), env).core, CookieOf(msg, env);
            var failed, complains := id in d.pinentry.awaiting, msg.error != "" && id !in d.pinentry.reported;
            var failure := if msg.error == "" then "Authentication failed" else msg.error;
            var first := if failed then c.store[id].(error := failure) else c.store[id];
            var second := Renewed(first, msg, Counts(d.pinentry, msg));
            var third := second.(error := msg.error);
            && c'.store == c.store[id := if complains then third else second]
            && c'.queue.routed ==
               c.queue.routed + (if failed then [Sight(first)] else []) + [Sight(second)] + (if complains then [Sight(third)] else [])
  {
    assert d.core.store[CookieOf(msg, env)].id == CookieOf(msg, env);
    hide Handle, DaemonInv, Counts, Requested, Renewed, Env.Valid;
    StepShows(d, PinentryInput(s, pid, msg), env);
    RequestedAgain(d, pid, msg, env);
  }

  lemma RequestedAgain(d: Daemon, pid: Pid, msg: PinentryMessage, env: Env)
    requires Admits(d, pid, msg, env) && CookieOf(msg, env) in d.core.store && d.core.store[CookieOf(msg, env)].id == CookieOf(msg, env)
    ensures var b, id := BoardOf(d.core), CookieOf(msg, env);
            var failed, complains := id in d.pinentry.awaiting, msg.error != "" && id !in d.pinentry.reported;
            var failure := if msg.error == "" then "Authentication failed" else msg.error;
            var first := if failed then b.store[id].(error := failure) else b.store[id];
            var second := Renewed(first, msg, Counts(d.pinentry, msg));
            var third := second.(error := msg.error);
            Requested(d, pid, msg, env) ==
            Board(b.store[id := if complains then third else second],
                  b.routed + (if failed then [Sight(first)] else []) + [Sight(second)] + (if complains then [Sight(third)] else []))
  {
    hide Counts, Board.Complain, Board.Open, Board.Prompt;
    var b, id := BoardOf(d.core), CookieOf(msg, env);
    var failed, complains := id in d.pinentry.awaiting, msg.error != "" && id !in d.pinentry.reported;
    var failure := if msg.error == "" then "Authentication failed" else msg.error;
    ComplainSight(b, id, failure);
    var b1 := if failed then b.Complain(id, failure) else b;
    var second := Renewed(b1.store[id], msg, Counts(d.pinentry, msg));
    var b2 := b1.Show(second);
    assert b2 == Board(b1.store[id := second], b1.routed + [Sight(second)]);
    ComplainSight(b2, id, msg.error);
    assert Requested(d, pid, msg, env) == if complains then b2.Complain(id, msg.error) else b2;
    hide Requested, Renewed, Sight, Board.Show;
  }
}
