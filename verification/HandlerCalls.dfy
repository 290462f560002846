/** Which agent calls the handlers make. */
module HandlerCalls {
  import opened Base
  import opened Sessions
  import opened Environments
  import opened AgentCore
  import opened CoreFrames
  import opened KeyringManagers
  import opened PinentryManagers
  import opened PolkitListeners
  import opened Daemons
  import opened TableAgreement

  /** A reply to the peer being served: neither an event, nor an answer to a request, nor a refusal for want of authority. */
  predicate PlainReply(m: Msg) {
    m.Pong? || m.Ok? || (m.Failure? && m.message != NOT_ACTIVE)
  }

  /** Calls about sessions, replies and answers. Sessions created without a prompt are polkit's. */
  predicate Usual(op: Op) {
    || (IsSessionOp(op) && (op.DoCreate? ==> op.source == Polkit))
    || (op.Say? && PlainReply(op.m))
    || (op.Answer? && (op.m.KeyringReply? || op.m.PinentryReply?))
  }

  predicate Opening(op: Op) {
    op.DoCreate? || op.DoOpen?
  }

  ghost predicate AllUsual(ops: seq<Op>) {
    forall i :: 0 <= i < |ops| ==> Usual(ops[i])
  }

  ghost predicate NoAnswer(ops: seq<Op>) {
    forall i :: 0 <= i < |ops| ==> !ops[i].Answer?
  }

  ghost predicate NoOpening(ops: seq<Op>) {
    forall i :: 0 <= i < |ops| ==> !Opening(ops[i])
  }

  /** Calls that neither open a session nor answer anybody. */
  ghost predicate Ending(ops: seq<Op>) {
    AllUsual(ops) && NoAnswer(ops) && NoOpening(ops)
  }

  /** Inputs handled by one agent call and nothing else. */
  predicate SingleCall(input: Input) {
    input.SubscribeInput? || input.NextInput? || input.RegisterInput? || input.HeartbeatInput? || input.UnregisterInput? || input.MaintenanceTimer?
  }

  /** The sender wants to answer or cancel, and may not. */
  predicate Refused(d: Daemon, input: Input) {
    (input.RespondInput? || input.CancelInput?) && !d.core.registry.Authorizes(input.s)
  }

  lemma {:induction false} CleanupCalls(ids: seq<Id>)
    ensures Ending(Cancellations(ids)) && Ending(Disconnections(ids))
    decreases |ids|
  {
    if ids != [] {
      CleanupCalls(ids[1..]);
    }
  }

  lemma {:induction false} CancelEachCalls(q: PolkitTables, ids: seq<Id>)
    ensures Ending(q.CancelEach(ids).1)
    decreases |ids|
  {
    if ids != [] {
      CancelEachCalls(q.CancelPending(ids[0]).0, ids[1..]);
    }
  }

  lemma PolkitCalls(q: PolkitTables, store: map<Id, SessionData>, input: Input, env: Env)
    ensures AllUsual(PolkitEffect(q, store, input, env).1) && NoAnswer(PolkitEffect(q, store, input, env).1)
    ensures !input.PolkitInitiate? ==> NoOpening(PolkitEffect(q, store, input, env).1)
  {
    if input.PolkitCancelAll? {
      CancelEachCalls(q, env.idOrder(q.states.Keys));
    }
  }

  lemma PinentryCalls(t: PinTables, store: map<Id, SessionData>, msg: PinentryMessage, s: Socket, pid: Pid, env: Env)
    ensures AllUsual(PinentryHandleRequest(t, store, msg, s, pid, env).1) && NoAnswer(PinentryHandleRequest(t, store, msg, s, pid, env).1)
  {
    hide PinTables.ResolveRetry, PinTables.Pended, PinentryContext;
  }

  lemma ResultCalls(d: Daemon, s: Socket, pid: Pid, id: Id, word: ResultWord, error: string, env: Env)
    ensures Ending(EffectOf(d, ResultInput(s, pid, id, word, error), env).ops)
  {
    hide PinTables.Forget, PinTables.CleanupAwaiting;
  }

  lemma RespondCalls(d: Daemon, s: Socket, id: Id, response: string)
    requires d.core.registry.Authorizes(s)
    ensures AllUsual(Respond(d, s, id, response).ops) && NoOpening(Respond(d, s, id, response).ops)
  {
    hide PinTables.Answered, PolkitTables.Submit;
  }

  lemma CancelCalls(d: Daemon, s: Socket, id: Id)
    requires d.core.registry.Authorizes(s)
    ensures AllUsual(Daemons.Cancel(d, s, id).ops) && NoOpening(Daemons.Cancel(d, s, id).ops)
  {
    hide PinTables.Forget, PolkitTables.Finish, PolkitTables.Retry;
  }

  lemma TimerCalls(d: Daemon, timer: nat, env: Env)
    ensures Ending(EffectOf(d, OutcomeTimer(timer), env).ops)
  {
    hide PinTables.Forget;
  }

  lemma KeyringCalls(d: Daemon, s: Socket, pid: Pid, msg: KeyringMessage, env: Env)
    ensures var ops := EffectOf(d, KeyringInput(s, pid, msg), env).ops; AllUsual(ops) && NoAnswer(ops)
  {
    hide KeyringContext;
  }

  /** Disconnections and single calls apart, handlers make usual calls only; only an answer or a cancellation from a UI
      answers a requester, and only requests open sessions. */
  lemma HandlersCallUsually(d: Daemon, input: Input, env: Env)
    requires !SingleCall(input) && !input.DisconnectInput? && !Refused(d, input)
    ensures AllUsual(EffectOf(d, input, env).ops)
    ensures !input.RespondInput? && !input.CancelInput? ==> NoAnswer(EffectOf(d, input, env).ops)
    ensures !input.KeyringInput? && !input.PinentryInput? && !input.PolkitInitiate? ==> NoOpening(EffectOf(d, input, env).ops)
  {
    hide Respond, Daemons.Cancel, PinentryHandleRequest, PinentryHandleResult, KeyringHandleRequest, Disconnect;
    match input
    case PinentryInput(s, pid, msg) => PinentryCalls(d.pinentry, d.core.store, msg, s, pid, env);
    case KeyringInput(s, pid, msg) => KeyringCalls(d, s, pid, msg, env);
    case ResultInput(s, pid, id, word, error) => ResultCalls(d, s, pid, id, word, error, env);
    case RespondInput(s, id, response) => RespondCalls(d, s, id, response);
    case CancelInput(s, id) => CancelCalls(d, s, id);
    case OutcomeTimer(timer) => TimerCalls(d, timer, env);
    case _ => PolkitCalls(d.polkit, d.core.store, input, env);
  }

  /** The sessions that a disconnection closes. */
  function Cleanup(d: Daemon, s: Socket, env: Env): seq<Op> {
    KeyringCleanup(d.keyring, s, env).1 + PinentryCleanup(d.pinentry, s, env).1
  }

  lemma DisconnectCalls(d: Daemon, s: Socket, env: Env)
    ensures Disconnect(d, s, env).ops == [DoUnsubscribe(s), DoRemoveProvider(s), DoRemoveWaiter(s)] + Cleanup(d, s, env) + [DoEnsure]
    ensures Ending(Cleanup(d, s, env))
  {
    hide PinTables.ForgetAll;
    CleanupCalls(Only(env.idOrder(d.keyring.Keys), KeyringOwned(d.keyring, s)));
    CleanupCalls(Only(env.idOrder(d.pinentry.pending.Keys), PinentryOwned(d.pinentry, s)));
  }
}
