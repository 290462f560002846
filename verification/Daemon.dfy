/** The whole daemon as a step system: one input, handled to the end, is one step. */
module Daemons {
  import opened Base
  import opened Sessions
  import opened Environments
  import opened ProviderRegistries
  import opened AgentCore
  import opened KeyringManagers
  import opened PinentryManagers
  import opened PolkitListeners

  datatype Daemon = Daemon(core: Core, keyring: KeyringTable, pinentry: PinTables, polkit: PolkitTables)

  datatype Input =
    | Ping(s: Socket)
    | UnknownType(s: Socket)
    | SubscribeInput(s: Socket)
    | NextInput(s: Socket)
    | KeyringInput(s: Socket, pid: Pid, keyringMsg: KeyringMessage)
    | PinentryInput(s: Socket, pid: Pid, pinentryMsg: PinentryMessage)
    | ResultInput(s: Socket, pid: Pid, id: Id, word: ResultWord, error: string)
    | RegisterInput(s: Socket, registration: Registration)
    | HeartbeatInput(s: Socket)
    | UnregisterInput(s: Socket)
    | RespondInput(s: Socket, id: Id, response: string)
    | CancelInput(s: Socket, id: Id)
    | DisconnectInput(s: Socket)
    | MaintenanceTimer
    | OutcomeTimer(timer: nat)
    | PolkitInitiate(cookie: Id, hasIdentity: bool, result: AsyncResult, message: string, actionId: string, user: string)
    | PolkitRequest(attempt: Attempting, prompt: string, echo: bool)
    | PolkitCompleted(attempt: Attempting, gained: bool)
    | PolkitError(attempt: Attempting, text: string)
    | PolkitInfo(attempt: Attempting, text: string)
    | PolkitCancelAll

  /** New manager tables, and the agent calls made on the way. */
  datatype Effect = Effect(keyring: KeyringTable, pinentry: PinTables, polkit: PolkitTables, ops: seq<Op>)

  const INITIAL := Daemon(INITIAL_CORE, map[], NO_FLOWS, NO_REQUESTS)

  const NOT_ACTIVE := "Not active UI provider"

  /** `handleRespond` */
  function Respond(d: Daemon, s: Socket, id: Id, response: string): Effect {
    var same := Effect(d.keyring, d.pinentry, d.polkit, []);
    if !d.core.registry.Authorizes(s) then same.(ops := [Say(s, Failure(NOT_ACTIVE))])
    else if id in d.keyring then
      same.(keyring := d.keyring - {id},
            ops := [DoClose(id, Success), Answer(d.keyring[id].socket, KeyringReply(id, Some(response))), Say(s, Ok(None))])
    else if id in d.pinentry.pending then
      var r := d.pinentry.pending[id];
      same.(pinentry := d.pinentry.Answered(id),
            ops := [Answer(r.socket, PinentryAnswer(r, id, response)), Say(s, Ok(None))])
    else if HasRequest(d.pinentry, d.core.store, id) then same.(ops := [Say(s, Failure("Session is not accepting input"))])
    else if id !in d.core.store then same.(ops := [Say(s, Failure("Unknown session"))])
    else if d.core.store[id].source != Polkit then same.(ops := [Say(s, Failure("Session is not awaiting direct response"))])
    else same.(polkit := d.polkit.Submit(id, response), ops := [Say(s, Ok(None))])
  }

  /** `handleCancel` */
  function Cancel(d: Daemon, s: Socket, id: Id): Effect {
    var same := Effect(d.keyring, d.pinentry, d.polkit, []);
    if !d.core.registry.Authorizes(s) then same.(ops := [Say(s, Failure(NOT_ACTIVE))])
    else if id in d.keyring then
      same.(keyring := d.keyring - {id},
            ops := [DoClose(id, Cancelled), Answer(d.keyring[id].socket, KeyringReply(id, None)), Say(s, Ok(None))])
    else if HasRequest(d.pinentry, d.core.store, id) then
      var told := if id in d.pinentry.pending then [Answer(d.pinentry.pending[id].socket, PinentryReply(id, Declined))] else [];
      same.(pinentry := d.pinentry.Forget(id), ops := [DoCloseFlow(id, Cancelled, "")] + told + [Say(s, Ok(None))])
    else if id !in d.core.store then same.(ops := [Say(s, Failure("Unknown session"))])
    else if d.core.store[id].source != Polkit then same.(ops := [Say(s, Failure("Session is not cancellable from this path"))])
    else
      var (t, ops) := d.polkit.CancelPending(id);
      same.(polkit := t, ops := ops + [Say(s, Ok(None))])
  }

  /** `onClientDisconnected` */
  function Disconnect(d: Daemon, s: Socket, env: Env): Effect {
    var (k, kops) := KeyringCleanup(d.keyring, s, env);
    var (p, pops) := PinentryCleanup(d.pinentry, s, env);
    Effect(k, p, d.polkit, [DoUnsubscribe(s), DoRemoveProvider(s), DoRemoveWaiter(s)] + kops + pops + [DoEnsure])
  }

  function EffectOf(d: Daemon, input: Input, env: Env): Effect {
    var same := Effect(d.keyring, d.pinentry, d.polkit, []);
    match input
    case Ping(s) => same.(ops := [Say(s, Pong(d.core.Info()))])
    case UnknownType(s) => same.(ops := [Say(s, Failure("Unknown type"))])
    case SubscribeInput(s) => same.(ops := [DoSubscribe(s)])
    case NextInput(s) => same.(ops := [DoNext(s)])
    case KeyringInput(s, pid, msg) =>
      var (t, ops) := KeyringHandleRequest(d.keyring, d.core.store, msg, s, pid, env);
      same.(keyring := t, ops := ops)
    case PinentryInput(s, pid, msg) =>
      var (t, ops) := PinentryHandleRequest(d.pinentry, d.core.store, msg, s, pid, env);
      same.(pinentry := t, ops := ops)
    case ResultInput(s, pid, id, word, error) =>
      var (t, ops, reply) := PinentryHandleResult(d.pinentry, d.core.store, id, pid, word, error);
      same.(pinentry := t, ops := ops + [Say(s, reply)])
    case RegisterInput(s, msg) => same.(ops := [DoRegister(s, msg)])
    case HeartbeatInput(s) => same.(ops := [DoHeartbeat(s)])
    case UnregisterInput(s) => same.(ops := [DoUnregister(s)])
    case RespondInput(s, id, response) => Respond(d, s, id, response)
    case CancelInput(s, id) => Cancel(d, s, id)
    case DisconnectInput(s) => Disconnect(d, s, env)
    case MaintenanceTimer => same.(ops := [DoPrune])
    case OutcomeTimer(timer) =>
      if timer !in d.pinentry.timers then same
      else
        var id := d.pinentry.timers[timer];
        same.(pinentry := d.pinentry.Forget(id), ops := [DoCloseFlow(id, Error, NO_RESULT)])
    case PolkitInitiate(cookie, hasIdentity, result, message, actionId, user) =>
      var (t, ops) := d.polkit.Initiate(d.core.store, cookie, hasIdentity, result, PolkitContext(message, actionId, user, env));
      same.(polkit := t, ops := ops)
    case PolkitRequest(attempt, prompt, echo) =>
      var (t, ops) := d.polkit.OnRequest(attempt, prompt, echo);
      same.(polkit := t, ops := ops)
    case PolkitCompleted(attempt, gained) =>
      var (t, ops) := d.polkit.OnCompleted(attempt, gained);
      same.(polkit := t, ops := ops)
    case PolkitError(attempt, text) =>
      var (t, ops) := d.polkit.OnError(attempt, text);
      same.(polkit := t, ops := ops)
    case PolkitInfo(attempt, text) =>
      var (t, ops) := d.polkit.OnInfo(attempt, text);
      same.(polkit := t, ops := ops)
    case PolkitCancelAll =>
      var (t, ops) := d.polkit.CancelEach(env.idOrder(d.polkit.states.Keys));
      same.(polkit := t, ops := ops)
  }

  function Handle(d: Daemon, input: Input, env: Env): Daemon {
    var e := EffectOf(d, input, env);
    Daemon(Apply(d.core, e.ops, env), e.keyring, e.pinentry, e.polkit)
  }

  /** An input together with the circumstances in which it is handled. */
  datatype Step = Step(input: Input, env: Env)

  function Run(d: Daemon, steps: seq<Step>): Daemon {
    if steps == [] then d
    else
      var before, last := Run(d, steps[..|steps| - 1]), steps[|steps| - 1];
      Handle(before, last.input, last.env)
  }

  ghost predicate ValidSteps(steps: seq<Step>) {
    forall i :: 0 <= i < |steps| ==> steps[i].env.Valid()
  }
}
