/** The two ends of the pinentry protocol together: one pinentry process, and the daemon serving it among others. */
module Composition {
  import opened Base
  import opened Sessions
  import opened Environments
  import opened AgentCore
  import opened CoreInvariants
  import opened KeyringManagers
  import opened PinentryManagers
  import opened PolkitListeners
  import opened Daemons
  import opened TableAgreement
  import opened StepOutcome
  import opened SessionTheorems
  import opened SecretRouting
  import opened PinentryClients

  // ---- what the daemon holds for one cookie

  ghost predicate Absent(d: Daemon, id: Id) {
    id !in d.core.store && Forgotten(d.pinentry, id)
  }

  ghost predicate Held(d: Daemon, id: Id, pid: Pid) {
    IsPinentry(d.core.store, id) && id in d.pinentry.owners && d.pinentry.owners[id] == pid
  }

  ghost predicate PendingAs(d: Daemon, id: Id, r: PinentryRequest) {
    && Held(d, id, r.pid) && id in d.pinentry.pending && d.pinentry.pending[id] == r
    && id !in d.pinentry.awaiting && id !in d.pinentry.reported
  }

  ghost predicate AwaitingFor(d: Daemon, id: Id, pid: Pid) {
    Held(d, id, pid) && id in d.pinentry.awaiting && id !in d.pinentry.pending && id !in d.pinentry.reported
  }

  ghost predicate RetryFor(d: Daemon, id: Id, pid: Pid) {
    Held(d, id, pid) && id in d.pinentry.reported && id !in d.pinentry.pending && id !in d.pinentry.awaiting
  }

  // ---- steps of other peers

  /** An input of somebody else: no session or request under this id, and no result from the process owning it. */
  predicate Foreign(input: Input, id: Id, pid: Pid, env: Env) {
    match input
    case KeyringInput(_, _, msg) => KeyringCookie(msg, env) != id
    case PinentryInput(s, p, msg) => ParsePinentry(msg, s, p, env).cookie != id
    case ResultInput(_, p, i, _, _) => p != pid || i != id
    case PolkitInitiate(cookie, _, _, _, _, _) => cookie != id
    case _ => true
  }

  /** An authorised UI answers, or cancels, the session `id`. */
  predicate AnswersFor(d: Daemon, input: Input, id: Id) {
    input.RespondInput? && input.id == id && d.core.registry.Authorizes(input.s)
  }

  predicate CancelsFor(d: Daemon, input: Input, id: Id) {
    input.CancelInput? && input.id == id && d.core.registry.Authorizes(input.s)
  }

  predicate TimesOut(d: Daemon, input: Input, id: Id) {
    input.OutcomeTimer? && input.timer in d.pinentry.timers && d.pinentry.timers[input.timer] == id
  }

  predicate LosesRequester(d: Daemon, input: Input, id: Id) {
    input.DisconnectInput? && id in d.pinentry.pending && d.pinentry.pending[id].socket == input.s
  }

  /** The step is about this flow. */
  predicate Concerns(d: Daemon, input: Input, id: Id) {
    AnswersFor(d, input, id) || CancelsFor(d, input, id) || TimesOut(d, input, id) || LosesRequester(d, input, id)
  }

  /** Sessions of one id before and after a step. */
  lemma StoreOf(d: Daemon, input: Input, id: Id, env: Env)
    requires env.Valid() && DaemonInv(d)
    ensures var store, store' := d.core.store, Handle(d, input, env).core.store;
            && (id !in Opens(d, input, env) && id !in Closes(d, input) ==>
                  (id in store' <==> id in store) && (id in store' ==> store'[id].source == store[id].source))
            && (id !in Opens(d, input, env) && id in Closes(d, input) ==> id !in store')
            && (id in Opens(d, input, env) ==> id in store' && store'[id].source == Opens(d, input, env)[id])
  {
    StepOpensAndCloses(d, input, env);
    var m, m' := LiveSessions(d.core.store), LiveSessions(Handle(d, input, env).core.store);
    assert m' == (m - Closes(d, input)) + Opens(d, input, env);
    assert id in m <==> id in d.core.store;
  }

  /** The session `id`, if there is one, belongs to a pinentry flow. */
  ghost predicate OursOrNobodys(d: Daemon, id: Id) {
    id in d.core.store ==> d.core.store[id].source == Pinentry
  }

  lemma NotOpened(d: Daemon, input: Input, id: Id, pid: Pid, env: Env)
    requires Foreign(input, id, pid, env)
    ensures id !in Opens(d, input, env)
  {
  }

  lemma NotClosed(d: Daemon, input: Input, id: Id, pid: Pid, env: Env)
    requires DaemonInv(d) && Foreign(input, id, pid, env) && !Concerns(d, input, id) && OursOrNobodys(d, id)
    requires IsPinentry(d.core.store, id) ==> Held(d, id, pid)
    ensures id !in Closes(d, input)
  {
    var m := LiveSessions(d.core.store);
    assert KeyringInv(d.keyring, m) && PinentryInv(d.pinentry, m) && PolkitInv(d.polkit, m);
    assert id in d.core.store ==> m[id] == Pinentry;
    assert id !in d.keyring && id !in d.polkit.states;
    if input.PolkitCompleted? && LastAttempt(d.polkit, input.attempt, input.gained) {
      assert d.polkit.attempts[input.attempt] in d.polkit.states;
    }
  }

  lemma PendFrame(t: PinTables, r: PinentryRequest, id: Id)
    requires r.cookie != id
    ensures FlowAgrees(t, t.Pended(r), id)
  {
    ClaimResolved(t, r);
    hide PinTables.ResolveRetry;
  }

  lemma RequestFrame(t: PinTables, store: map<Id, SessionData>, msg: PinentryMessage, s: Socket, pid: Pid, id: Id, env: Env)
    requires ParsePinentry(msg, s, pid, env).cookie != id
    ensures FlowAgrees(t, PinentryHandleRequest(t, store, msg, s, pid, env).0, id)
  {
    hide PinTables.Pended, PinTables.ResolveRetry, PinentryContext;
    PendFrame(t, ParsePinentry(msg, s, pid, env), id);
  }

  lemma ForgetFrame(t: PinTables, i: Id, id: Id)
    requires i != id
    ensures FlowAgrees(t, t.Forget(i), id) && FlowAgrees(t, t.CleanupAwaiting(i), id)
  {
  }

  lemma ResultFrame(t: PinTables, store: map<Id, SessionData>, i: Id, p: Pid, word: ResultWord, error: string, id: Id)
    requires i != id || t.OwnedByOther(i, p) || !IsPinentry(store, i)
    ensures FlowAgrees(t, PinentryHandleResult(t, store, i, p, word, error).0, id)
  {
    var t' := PinentryHandleResult(t, store, i, p, word, error).0;
    if i == "" || t.OwnedByOther(i, p) || !IsPinentry(store, i) || word == SaysOther {
      assert t' == t;
    } else {
      ForgetFrame(t, i, id);
    }
  }

  lemma AnswerFrame(d: Daemon, s: Socket, i: Id, response: string, id: Id)
    requires i != id || !d.core.registry.Authorizes(s) || id in d.keyring || id !in d.pinentry.pending
    ensures FlowAgrees(d.pinentry, Respond(d, s, i, response).pinentry, id)
  {
  }

  lemma CancelFrame(d: Daemon, s: Socket, i: Id, id: Id)
    requires i != id || !d.core.registry.Authorizes(s)
    ensures FlowAgrees(d.pinentry, Cancel(d, s, i).pinentry, id)
  {
  }

  /** The flow tables say the same about `id` after a step that does not concern it. */
  lemma FlowFrame(d: Daemon, input: Input, id: Id, pid: Pid, env: Env)
    requires env.Valid() && DaemonInv(d) && Foreign(input, id, pid, env) && !Concerns(d, input, id)
    requires IsPinentry(d.core.store, id) ==> Held(d, id, pid)
    ensures FlowAgrees(d.pinentry, EffectOf(d, input, env).pinentry, id)
  {
    hide FlowAgrees, PinentryHandleRequest, PinentryHandleResult, Respond, Daemons.Cancel, KeyringHandleRequest, PinTables.Forget;
    match input
    case PinentryInput(s, p, msg) => RequestFrame(d.pinentry, d.core.store, msg, s, p, id, env);
    case ResultInput(_, p, i, word, error) => ResultFrame(d.pinentry, d.core.store, i, p, word, error, id);
    case RespondInput(s, i, response) => AnswerFrame(d, s, i, response, id);
    case CancelInput(s, i) => CancelFrame(d, s, i, id);
    case DisconnectInput(s) =>
      ValidWalks(d, env);
      CleanupScrubs(d.pinentry, s, env);
    case OutcomeTimer(timer) =>
      FlowSame(d.pinentry, id);
      if timer in d.pinentry.timers {
        ForgetFrame(d.pinentry, d.pinentry.timers[timer], id);
      }
    case _ => FlowSame(d.pinentry, id);
  }

  lemma FlowSame(p: PinTables, id: Id)
    ensures FlowAgrees(p, p, id)
  {
  }

  /** A step that does not concern a flow changes nothing about it. */
  lemma Unconcerned(d: Daemon, input: Input, id: Id, pid: Pid, env: Env)
    requires env.Valid() && DaemonInv(d) && Foreign(input, id, pid, env) && !Concerns(d, input, id)
    requires Absent(d, id) || Held(d, id, pid)
    ensures var d' := Handle(d, input, env);
            && FlowAgrees(d.pinentry, d'.pinentry, id)
            && (id in d'.core.store <==> id in d.core.store) && (id in d.core.store ==> IsPinentry(d'.core.store, id))
  {
    NotOpened(d, input, id, pid, env);
    NotClosed(d, input, id, pid, env);
    FlowFrame(d, input, id, pid, env);
    StoreOf(d, input, id, env);
  }

  // ---- steps that concern a flow

  lemma Answering(d: Daemon, input: Input, id: Id, env: Env)
    requires env.Valid() && DaemonInv(d) && AnswersFor(d, input, id) && IsPinentry(d.core.store, id)
    ensures var d' := Handle(d, input, env);
            && IsPinentry(d'.core.store, id)
            && (if id in d.pinentry.pending
                then d'.pinentry.owners == d.pinentry.owners && d'.pinentry.reported == d.pinentry.reported
                     && id in d'.pinentry.awaiting && id !in d'.pinentry.pending
                else d'.pinentry == d.pinentry)
  {
    hide ApplyOne, StoreInv, CoreInv;
    assert KeyringInv(d.keyring, LiveSessions(d.core.store));
    StoreOf(d, input, id, env);
  }

  /** Cancelling, timing out and losing the requester all end the flow. */
  lemma Ending(d: Daemon, input: Input, id: Id, env: Env)
    requires env.Valid() && DaemonInv(d) && IsPinentry(d.core.store, id)
    requires CancelsFor(d, input, id) || TimesOut(d, input, id)
    ensures Absent(Handle(d, input, env), id)
  {
    hide Apply, CoreInv;
    assert KeyringInv(d.keyring, LiveSessions(d.core.store)) && FlowInv(d.pinentry);
    StoreOf(d, input, id, env);
  }

  lemma AbsentAnswer(d: Daemon, input: Input, id: Id, env: Env)
    requires env.Valid() && DaemonInv(d) && Absent(d, id) && (AnswersFor(d, input, id) || CancelsFor(d, input, id))
    ensures Absent(Handle(d, input, env), id)
  {
    hide Apply, ApplyOne, CoreInv;
    assert KeyringInv(d.keyring, LiveSessions(d.core.store));
    StoreOf(d, input, id, env);
  }

  lemma AbsentStays(d: Daemon, input: Input, id: Id, pid: Pid, env: Env)
    requires env.Valid() && DaemonInv(d) && Foreign(input, id, pid, env) && Absent(d, id)
    ensures Absent(Handle(d, input, env), id)
  {
    assert FlowInv(d.pinentry);
    if AnswersFor(d, input, id) || CancelsFor(d, input, id) {
      AbsentAnswer(d, input, id, env);
    } else {
      Unconcerned(d, input, id, pid, env);
    }
  }

  /** A flow that is not pending is left alone, or over. */
  lemma IdleFlowStep(d: Daemon, input: Input, id: Id, pid: Pid, env: Env)
    requires env.Valid() && DaemonInv(d) && Foreign(input, id, pid, env) && Held(d, id, pid) && id !in d.pinentry.pending
    ensures var d' := Handle(d, input, env);
            Absent(d', id)
            || (&& Held(d', id, pid) && id !in d'.pinentry.pending
                && (id in d.pinentry.awaiting <==> id in d'.pinentry.awaiting)
                && (id in d.pinentry.reported <==> id in d'.pinentry.reported))
  {
    if CancelsFor(d, input, id) || TimesOut(d, input, id) {
      Ending(d, input, id, env);
    } else if AnswersFor(d, input, id) {
      Answering(d, input, id, env);
    } else {
      Unconcerned(d, input, id, pid, env);
    }
  }

  lemma AwaitingStep(d: Daemon, input: Input, id: Id, pid: Pid, env: Env)
    requires env.Valid() && DaemonInv(d) && Foreign(input, id, pid, env)
    requires AwaitingFor(d, id, pid) || Absent(d, id)
    ensures AwaitingFor(Handle(d, input, env), id, pid) || Absent(Handle(d, input, env), id)
  {
    if Absent(d, id) {
      AbsentStays(d, input, id, pid, env);
    } else {
      IdleFlowStep(d, input, id, pid, env);
    }
  }

  lemma RetryStep(d: Daemon, input: Input, id: Id, pid: Pid, env: Env)
    requires env.Valid() && DaemonInv(d) && Foreign(input, id, pid, env)
    requires RetryFor(d, id, pid) || Absent(d, id)
    ensures RetryFor(Handle(d, input, env), id, pid) || Absent(Handle(d, input, env), id)
  {
    if Absent(d, id) {
      AbsentStays(d, input, id, pid, env);
    } else {
      IdleFlowStep(d, input, id, pid, env);
    }
  }

  /** A pending flow stays pending until it is answered or cancelled. */
  lemma PendingStep(d: Daemon, input: Input, id: Id, r: PinentryRequest, env: Env)
    requires env.Valid() && DaemonInv(d) && Foreign(input, id, r.pid, env)
    requires PendingAs(d, id, r) && input != DisconnectInput(r.socket)
    ensures var d' := Handle(d, input, env);
            if AnswersFor(d, input, id) then AwaitingFor(d', id, r.pid)
            else if CancelsFor(d, input, id) then Absent(d', id)
            else PendingAs(d', id, r)
  {
    hide Handle, CoreInv, LiveSessions;
    assert FlowInv(d.pinentry);
    if AnswersFor(d, input, id) {
      Answering(d, input, id, env);
    } else if CancelsFor(d, input, id) {
      Ending(d, input, id, env);
    } else {
      Unconcerned(d, input, id, r.pid, env);
    }
  }

  // ---- steps of the process itself

  /** Its request makes the flow pending. */
  lemma Requesting(d: Daemon, s: Socket, pid: Pid, msg: PinentryMessage, env: Env)
    requires env.Valid() && DaemonInv(d) && msg.cookie != ""
    requires Absent(d, msg.cookie) || Held(d, msg.cookie, pid)
    ensures PendingAs(Handle(d, PinentryInput(s, pid, msg), env), msg.cookie, ParsePinentry(msg, s, pid, env))
  {
    var input := PinentryInput(s, pid, msg);
    StoreOf(d, input, msg.cookie, env);
    RequestPends(d.pinentry, ParsePinentry(msg, s, pid, env));
  }

  lemma RequestPends(t: PinTables, r: PinentryRequest)
    ensures var t' := t.Pended(r);
            && r.cookie in t'.pending && t'.pending[r.cookie] == r && r.cookie in t'.owners && t'.owners[r.cookie] == r.pid
            && r.cookie !in t'.awaiting && r.cookie !in t'.reported
  {
  }

  /** Its terminal result ends the flow; a retry leaves it reported. */
  lemma Reporting(d: Daemon, s: Socket, pid: Pid, id: Id, word: ResultWord, error: string, env: Env)
    requires env.Valid() && DaemonInv(d) && id != "" && word != SaysOther
    requires AwaitingFor(d, id, pid) || Absent(d, id)
    ensures var d' := Handle(d, ResultInput(s, pid, id, word, error), env);
            Absent(d', id) || (word == SaysRetry && RetryFor(d', id, pid))
  {
    hide DaemonInv, FlowInv, TablesInv;
    StoreOf(d, ResultInput(s, pid, id, word, error), id, env);
  }

  // ---- answers

  predicate IsFor(m: Msg, id: Id) {
    (m.KeyringReply? || m.PinentryReply?) && m.id == id
  }

  /** The answers offered to requesters under one id. */
  function RepliesFor(replies: seq<Reply>, id: Id): seq<Reply> {
    if replies == [] then []
    else
      var last := replies[|replies| - 1];
      RepliesFor(replies[..|replies| - 1], id) + if IsFor(last.msg, id) then [last] else []
  }

  /** What one step adds to them. */
  lemma RepliesGrow(d: Daemon, input: Input, id: Id, env: Env)
    ensures RepliesFor(Handle(d, input, env).core.replies, id) ==
            RepliesFor(d.core.replies, id) +
            if Offered(d, input) != [] && IsFor(Offered(d, input)[0].msg, id) then Offered(d, input) else []
  {
    OffersAreLogged(d, input, env);
    var old', o := d.core.replies, Offered(d, input);
    if o != [] {
      assert (old' + o)[..|old'|] == old';
      assert o == [o[0]];
    } else {
      assert old' + o == old';
    }
  }

  lemma OffersForPending(d: Daemon, input: Input, id: Id, r: PinentryRequest)
    requires DaemonInv(d) && PendingAs(d, id, r)
    ensures var o := Offered(d, input);
            if AnswersFor(d, input, id) then o == [Reply(r.socket, PinentryReply(id, if r.confirmOnly then Confirmed else Password(input.response)))]
            else if CancelsFor(d, input, id) then o == [Reply(r.socket, PinentryReply(id, AgentCore.Declined))]
            else o == [] || !IsFor(o[0].msg, id)
  {
    hide CoreInv;
    assert KeyringInv(d.keyring, LiveSessions(d.core.store));
  }

  lemma NoOffersOtherwise(d: Daemon, input: Input, id: Id)
    requires DaemonInv(d) && id !in d.pinentry.pending && OursOrNobodys(d, id)
    ensures Offered(d, input) == [] || !IsFor(Offered(d, input)[0].msg, id)
  {
    assert KeyringInv(d.keyring, LiveSessions(d.core.store));
  }
}
