/** Every interleaving of one pinentry process with the daemon and its other peers. */
module PinentryWorlds {
  import opened Base
  import opened Sessions
  import opened Environments
  import opened AgentCore
  import opened PinentryManagers
  import opened Daemons
  import opened TableAgreement
  import opened PinentryClients
  import opened Composition

  /** Between commands; between a retry report and the request that follows it; or blocked on a request, made when
      `offered` answers had been offered under its cookie. */
  datatype Phase = Idle | Reported | Waiting(request: PinentryRequest, offered: nat)

  /** `used` are the cookies the process has sent to the daemon. */
  datatype World = World(daemon: Daemon, client: PinentryData, phase: Phase, used: set<Id>)

  /** `attempts` is what the daemon reads out of the description that the process sends. */
  datatype Move =
    | Other(input: Input, env: Env)
    | LocalCommand(command: Command)
    | GetPinCommand(s: Socket, env: Env, uuid: Id, attempts: Option<(int, int)>)
    | AskAgain(s: Socket, env: Env, attempts: Option<(int, int)>)
    | ConfirmCommand(s: Socket, env: Env, uuid: Id, attempts: Option<(int, int)>)
    | Finish(s: Socket, env: Env, bye: bool)
    | ReceiveAnswer

  function Message(a: Asking, attempts: Option<(int, int)>): PinentryMessage {
    PinentryMessage(a.cookie, a.prompt, a.description, attempts, a.error, a.keyinfo, a.repeat, a.confirmOnly)
  }

  /** The daemon handles the process's request, and the process waits. */
  function AskDaemon(w: World, c: PinentryData, a: Asking, s: Socket, pid: Pid, env: Env, attempts: Option<(int, int)>): World {
    var msg := Message(a, attempts);
    World(Handle(w.daemon, PinentryInput(s, pid, msg), env), c,
          Waiting(ParsePinentry(msg, s, pid, env), |RepliesFor(w.daemon.core.replies, a.cookie)|), w.used + {a.cookie})
  }

  function Tell(d: Daemon, c: PinentryData, word: ResultWord, error: string, s: Socket, pid: Pid, env: Env): Daemon {
    if c.cookie == "" then d else Handle(d, ResultInput(s, pid, c.cookie, word, error), env)
  }

  function AnswerTo(w: World): Option<Msg>
    requires w.phase.Waiting?
  {
    var rs := RepliesFor(w.daemon.core.replies, w.phase.request.cookie);
    if w.phase.offered < |rs| && rs[w.phase.offered].socket == w.phase.request.socket then Some(rs[w.phase.offered].msg) else None
  }

  predicate CanMove(w: World, move: Move) {
    match move
    case Other(_, _) => true
    case LocalCommand(c) => w.phase.Idle? && w.client.running && !c.GetPin? && !c.Confirm? && !c.Bye?
    case GetPinCommand(_, _, _, _) => w.phase.Idle? && w.client.running
    case ConfirmCommand(_, _, _, _) => w.phase.Idle? && w.client.running
    case AskAgain(_, _, _) => w.phase.Reported?
    case Finish(_, _, _) => w.phase.Idle? && w.client.running
    case ReceiveAnswer => w.phase.Waiting? && AnswerTo(w).Some?
  }

  function Go(w: World, move: Move, pid: Pid): World
    requires CanMove(w, move)
  {
    var p := w.client;
    match move
    case Other(input, env) => w.(daemon := Handle(w.daemon, input, env))
    case LocalCommand(c) => w.(client := p.Local(c))
    case GetPinCommand(s, env, uuid, attempts) =>
      if p.awaiting then
        w.(daemon := Tell(w.daemon, p, SaysRetry, OrElse(p.texts.error, FAILED), s, pid, env), client := p.BeginPin(), phase := Reported)
      else
        var c := p.EnsureCookie(uuid);
        AskDaemon(w, c, c.PinRequest(), s, pid, env, attempts)
    case AskAgain(s, env, attempts) => AskDaemon(w, p, p.PinRequest(), s, pid, env, attempts)
    case ConfirmCommand(s, env, uuid, attempts) =>
      var c := p.EnsureCookie(uuid);
      AskDaemon(w, c, c.ConfirmRequest(), s, pid, env, attempts)
    case Finish(s, env, bye) =>
      w.(daemon := Tell(w.daemon, p, p.LastWord(), p.texts.error, s, pid, env),
         client := if bye then p.Handle(Bye, "", None) else p.HangUp())
    case ReceiveAnswer =>
      w.(client := if w.phase.request.confirmOnly then p.EndConfirm(AnswerTo(w)) else p.EndPin(AnswerTo(w)), phase := Idle)
  }

  // ---- what is assumed of the surroundings

  ghost predicate Unseen(w: World, uuid: Id) {
    uuid != "" && uuid !in w.used && Absent(w.daemon, uuid)
  }

  /** Nobody else uses the process's cookies, new cookies are unique, and no exchange is lost. */
  ghost predicate Fair(w: World, move: Move, pid: Pid) {
    CanMove(w, move) &&
    match move
    case Other(input, env) =>
      && env.Valid() && (forall id :: id in w.used ==> Foreign(input, id, pid, env))
      && (w.phase.Waiting? ==> input != DisconnectInput(w.phase.request.socket))
    case GetPinCommand(_, env, uuid, _) => env.Valid() && (w.client.cookie == "" ==> Unseen(w, uuid))
    case ConfirmCommand(_, env, uuid, _) => env.Valid() && (w.client.cookie == "" ==> Unseen(w, uuid))
    case AskAgain(_, env, _) => env.Valid()
    case Finish(_, env, _) => env.Valid()
    case _ => true
  }

  // ---- the invariant

  ghost predicate OthersAbsent(w: World) {
    forall id :: id in w.used && id != w.client.cookie ==> Absent(w.daemon, id)
  }

  ghost predicate IdleInv(w: World, pid: Pid) {
    var p := w.client;
    && (p.awaiting <==> p.cookie != "") && (!p.running ==> p.cookie == "")
    && (p.cookie != "" ==> AwaitingFor(w.daemon, p.cookie, pid) || Absent(w.daemon, p.cookie))
  }

  ghost predicate ReportedInv(w: World, pid: Pid) {
    var p := w.client;
    p.running && p.cookie != "" && !p.awaiting && (RetryFor(w.daemon, p.cookie, pid) || Absent(w.daemon, p.cookie))
  }

  /** The answer has been offered, on the right socket and of the right kind. */
  ghost predicate AnsweredInv(d: Daemon, r: PinentryRequest, reply: Reply) {
    && reply.socket == r.socket && reply.msg.PinentryReply?
    && (if reply.msg.outcome.Declined? then Absent(d, r.cookie)
        else (AwaitingFor(d, r.cookie, r.pid) || Absent(d, r.cookie)) && (r.confirmOnly <==> reply.msg.outcome.Confirmed?))
  }

  ghost predicate WaitingInv(d: Daemon, r: PinentryRequest, offered: nat) {
    var rs := RepliesFor(d.core.replies, r.cookie);
    (|rs| == offered && PendingAs(d, r.cookie, r)) || (|rs| == offered + 1 && AnsweredInv(d, r, rs[offered]))
  }

  ghost predicate PhaseInv(w: World, pid: Pid) {
    match w.phase
    case Idle => IdleInv(w, pid)
    case Reported => ReportedInv(w, pid)
    case Waiting(r, n) => w.client.running && r.cookie == w.client.cookie && r.cookie != "" && r.pid == pid && WaitingInv(w.daemon, r, n)
  }

  ghost predicate WorldInv(w: World, pid: Pid) {
    && DaemonInv(w.daemon) && "" !in w.used && (w.client.cookie != "" ==> w.client.cookie in w.used)
    && OthersAbsent(w) && PhaseInv(w, pid)
  }

  // ---- moves of others

  lemma OthersStayAbsent(w: World, input: Input, pid: Pid, env: Env)
    requires env.Valid() && DaemonInv(w.daemon) && OthersAbsent(w)
    requires forall id :: id in w.used && id != w.client.cookie ==> Foreign(input, id, pid, env)
    ensures OthersAbsent(w.(daemon := Handle(w.daemon, input, env)))
  {
    forall id | id in w.used && id != w.client.cookie ensures Absent(Handle(w.daemon, input, env), id) {
      AbsentStays(w.daemon, input, id, pid, env);
    }
  }

  lemma WaitingStep(d: Daemon, r: PinentryRequest, offered: nat, input: Input, env: Env)
    requires env.Valid() && DaemonInv(d) && Foreign(input, r.cookie, r.pid, env) && input != DisconnectInput(r.socket)
    requires WaitingInv(d, r, offered)
    ensures WaitingInv(Handle(d, input, env), r, offered)
  {
    hide DaemonInv, EffectOf, Apply, Handle;
    RepliesGrow(d, input, r.cookie, env);
    if PendingAs(d, r.cookie, r) {
      OffersForPending(d, input, r.cookie, r);
      PendingStep(d, input, r.cookie, r, env);
    } else {
      NoOffersOtherwise(d, input, r.cookie);
      AwaitingStep(d, input, r.cookie, r.pid, env);
      var rs := RepliesFor(d.core.replies, r.cookie);
      if rs[offered].msg.outcome.Declined? {
        AbsentStays(d, input, r.cookie, r.pid, env);
      }
    }
  }

  lemma OtherMove(w: World, input: Input, env: Env, pid: Pid)
    requires WorldInv(w, pid) && Fair(w, Other(input, env), pid)
    ensures WorldInv(w.(daemon := Handle(w.daemon, input, env)), pid)
  {
    hide Handle;
    var c := w.client.cookie;
    HandleKeeps(w.daemon, input, env);
    OthersStayAbsent(w, input, pid, env);
    match w.phase
    case Idle =>
      if c != "" {
        AwaitingStep(w.daemon, input, c, pid, env);
      }
    case Reported => RetryStep(w.daemon, input, c, pid, env);
    case Waiting(r, n) => WaitingStep(w.daemon, r, n, input, env);
  }

  // ---- moves of the process

  lemma AskMove(w: World, c: PinentryData, a: Asking, s: Socket, pid: Pid, env: Env, attempts: Option<(int, int)>)
    requires env.Valid() && DaemonInv(w.daemon) && "" !in w.used && c.running && c.cookie != "" && a.cookie == c.cookie
    requires OthersAbsent(w.(client := c))
    requires Absent(w.daemon, c.cookie) || Held(w.daemon, c.cookie, pid)
    ensures WorldInv(AskDaemon(w, c, a, s, pid, env, attempts), pid)
  {
    hide DaemonInv, TablesInv, PinentryInv, Handle;
    var msg := Message(a, attempts);
    var input := PinentryInput(s, pid, msg);
    HandleKeeps(w.daemon, input, env);
    Requesting(w.daemon, s, pid, msg, env);
    OthersStayAbsent(w.(client := c), input, pid, env);
    RepliesGrow(w.daemon, input, a.cookie, env);
  }

  lemma TellMove(w: World, word: ResultWord, error: string, s: Socket, pid: Pid, env: Env)
    requires env.Valid() && WorldInv(w, pid) && w.phase.Idle? && word != SaysOther && w.client.cookie != ""
    ensures var d' := Tell(w.daemon, w.client, word, error, s, pid, env);
            && DaemonInv(d') && OthersAbsent(w.(daemon := d'))
            && (Absent(d', w.client.cookie) || (word == SaysRetry && RetryFor(d', w.client.cookie, pid)))
  {
    hide Handle;
    var input := ResultInput(s, pid, w.client.cookie, word, error);
    HandleKeeps(w.daemon, input, env);
    Reporting(w.daemon, s, pid, w.client.cookie, word, error, env);
    OthersStayAbsent(w, input, pid, env);
  }

  lemma FinishMove(w: World, s: Socket, env: Env, bye: bool, pid: Pid)
    requires WorldInv(w, pid) && Fair(w, Finish(s, env, bye), pid)
    ensures WorldInv(Go(w, Finish(s, env, bye), pid), pid)
  {
    hide DaemonInv, Apply;
    if w.client.cookie != "" {
      TellMove(w, w.client.LastWord(), w.client.texts.error, s, pid, env);
    }
  }

  lemma GetPinMove(w: World, s: Socket, env: Env, uuid: Id, attempts: Option<(int, int)>, pid: Pid)
    requires WorldInv(w, pid) && Fair(w, GetPinCommand(s, env, uuid, attempts), pid)
    ensures WorldInv(Go(w, GetPinCommand(s, env, uuid, attempts), pid), pid)
  {
    hide Handle, DaemonInv;
    if w.client.awaiting {
      TellMove(w, SaysRetry, OrElse(w.client.texts.error, FAILED), s, pid, env);
    } else {
      var c := w.client.EnsureCookie(uuid);
      AskMove(w, c, c.PinRequest(), s, pid, env, attempts);
    }
  }

  lemma ConfirmMove(w: World, s: Socket, env: Env, uuid: Id, attempts: Option<(int, int)>, pid: Pid)
    requires WorldInv(w, pid) && Fair(w, ConfirmCommand(s, env, uuid, attempts), pid)
    ensures WorldInv(Go(w, ConfirmCommand(s, env, uuid, attempts), pid), pid)
  {
    var c := w.client.EnsureCookie(uuid);
    AskMove(w, c, c.ConfirmRequest(), s, pid, env, attempts);
  }

  lemma AnswerMove(w: World, pid: Pid)
    requires WorldInv(w, pid) && Fair(w, ReceiveAnswer, pid)
    ensures WorldInv(Go(w, ReceiveAnswer, pid), pid)
  {
    var r, n := w.phase.request, w.phase.offered;
    assert AnsweredInv(w.daemon, r, RepliesFor(w.daemon.core.replies, r.cookie)[n]);
  }

  lemma EveryMove(w: World, move: Move, pid: Pid)
    requires WorldInv(w, pid) && Fair(w, move, pid)
    ensures WorldInv(Go(w, move, pid), pid)
  {
    hide Handle, DaemonInv;
    match move
    case Other(input, env) => OtherMove(w, input, env, pid);
    case LocalCommand(c) =>
    case GetPinCommand(s, env, uuid, attempts) => GetPinMove(w, s, env, uuid, attempts, pid);
    case AskAgain(s, env, attempts) => AskMove(w, w.client, w.client.PinRequest(), s, pid, env, attempts);
    case ConfirmCommand(s, env, uuid, attempts) => ConfirmMove(w, s, env, uuid, attempts, pid);
    case Finish(s, env, bye) => FinishMove(w, s, env, bye, pid);
    case ReceiveAnswer => AnswerMove(w, pid);
  }

  // ---- whole runs

  /** `w` can be reached from a daemon that has run on its own for `before` and a process that has just started. */
  ghost predicate Reaches(before: seq<Step>, moves: seq<Move>, w: World, pid: Pid) {
    if moves == [] then w == World(Run(INITIAL, before), READY, Idle, {})
    else
      var n := |moves| - 1;
      exists v :: Reaches(before, moves[..n], v, pid) && Fair(v, moves[n], pid) && w == Go(v, moves[n], pid)
  }

  lemma {:induction false} WorldsKeep(before: seq<Step>, moves: seq<Move>, w: World, pid: Pid)
    requires ValidSteps(before) && Reaches(before, moves, w, pid)
    ensures WorldInv(w, pid)
  {
    if moves == [] {
      RunKeeps(before);
    } else {
      var n := |moves| - 1;
      var v :| Reaches(before, moves[..n], v, pid) && Fair(v, moves[n], pid) && w == Go(v, moves[n], pid);
      WorldsKeep(before, moves[..n], v, pid);
      EveryMove(v, moves[n], pid);
    }
  }

  /** At every command boundary: the process awaits an outcome exactly if it holds a cookie; the daemon then awaits the
      outcome for it, or has dropped the flow entirely; and of every other cookie the process ever used the daemon
      holds no session, request, owner or retry report. */
  lemma BothEndsAgree(before: seq<Step>, moves: seq<Move>, w: World, pid: Pid, id: Id)
    requires ValidSteps(before) && Reaches(before, moves, w, pid) && w.phase.Idle? && id in w.used
    ensures w.client.awaiting <==> w.client.cookie != ""
    ensures id != w.client.cookie ==> Absent(w.daemon, id)
    ensures id == w.client.cookie ==> AwaitingFor(w.daemon, id, pid) || Absent(w.daemon, id)
    ensures !w.client.running ==> Absent(w.daemon, id)
  {
    WorldsKeep(before, moves, w, pid);
  }
}
