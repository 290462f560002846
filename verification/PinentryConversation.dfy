/** In every interleaving the pinentry process has an ordinary conversation, and ends each flow once. */
module PinentryConversations {
  import opened Base
  import opened Environments
  import opened AgentCore
  import opened PinentryManagers
  import opened Daemons
  import opened TableAgreement
  import opened PinentryClients
  import opened Composition
  import opened PinentryWorlds

  // ---- the process's side of a composed run is a conversation

  /** The process has come out of a conversation, or hung up after one. */
  ghost predicate Rests(p: PinentryData, turns: seq<Turn>) {
    p == Talk(turns) || p == Talk(turns).HangUp()
  }

  /** The process is in the middle of a turn that began after `turns`. */
  ghost predicate InTurn(w: World, turns: seq<Turn>, uuid: Id) {
    var p := Talk(turns);
    p.running &&
    match w.phase
    case Idle => false
    case Reported => w.client == p.BeginPin() && w.client.cookie != ""
    case Waiting(r, _) => w.client == (if r.confirmOnly then p else p.BeginPin()).EnsureCookie(uuid)
  }

  ghost predicate Converses(w: World) {
    if w.phase.Idle? then exists turns :: Rests(w.client, turns) else exists turns, uuid :: InTurn(w, turns, uuid)
  }

  lemma TalkMore(turns: seq<Turn>, turn: Turn)
    ensures Talk(turns + [turn]) == Talk(turns).Handle(turn.command, turn.uuid, turn.reply)
  {
    assert (turns + [turn])[..|turns|] == turns;
  }

  /** A running process has not hung up. */
  lemma StillTalking(p: PinentryData, turns: seq<Turn>)
    requires Rests(p, turns) && p.running
    ensures p == Talk(turns)
  {
  }

  lemma IdleConverses(w: World, move: Move, pid: Pid, turns: seq<Turn>)
    requires w.phase.Idle? && CanMove(w, move) && !move.Other? && w.client == Talk(turns) && (w.client.awaiting ==> w.client.cookie != "")
    ensures Converses(Go(w, move, pid))
  {
    hide Handle, Absent;
    var w' := Go(w, move, pid);
    match move
    case LocalCommand(c) =>
      TalkMore(turns, Turn(c, "", None));
      assert Rests(w'.client, turns + [Turn(c, "", None)]);
    case GetPinCommand(_, _, uuid, _) => assert InTurn(w', turns, uuid);
    case ConfirmCommand(_, _, uuid, _) => assert InTurn(w', turns, uuid);
    case Finish(_, _, bye) =>
      TalkMore(turns, Turn(Bye, "", None));
      assert Rests(w'.client, if bye then turns + [Turn(Bye, "", None)] else turns);
  }

  lemma TurnConverses(w: World, move: Move, pid: Pid, turns: seq<Turn>, uuid: Id)
    requires !w.phase.Idle? && CanMove(w, move) && !move.Other? && InTurn(w, turns, uuid)
    ensures Converses(Go(w, move, pid))
  {
    hide Handle;
    var w' := Go(w, move, pid);
    if move.AskAgain? {
      assert InTurn(w', turns, "");
    } else {
      var turn := Turn(if w.phase.request.confirmOnly then Confirm else GetPin, uuid, AnswerTo(w));
      TalkMore(turns, turn);
      assert Rests(w'.client, turns + [turn]);
    }
  }

  lemma OtherConverses(w: World, d: Daemon)
    requires Converses(w)
    ensures Converses(w.(daemon := d))
  {
    if !w.phase.Idle? {
      var turns, uuid :| InTurn(w, turns, uuid);
      assert InTurn(w.(daemon := d), turns, uuid);
    }
  }

  lemma MoveConverses(w: World, move: Move, pid: Pid)
    requires Converses(w) && WorldInv(w, pid) && CanMove(w, move)
    ensures Converses(Go(w, move, pid))
  {
    hide DaemonInv, OthersAbsent, WaitingInv, Handle;
    if move.Other? {
      OtherConverses(w, Handle(w.daemon, move.input, move.env));
    } else if w.phase.Idle? {
      var turns :| Rests(w.client, turns);
      StillTalking(w.client, turns);
      IdleConverses(w, move, pid, turns);
    } else {
      var turns, uuid :| InTurn(w, turns, uuid);
      TurnConverses(w, move, pid, turns, uuid);
    }
  }

  /** Every move of the process is a piece of the turn that the specification of the process takes; at rest it has had a
      whole conversation, with the daemon's real answers for replies. */
  lemma {:induction false} ProcessConverses(before: seq<Step>, moves: seq<Move>, w: World, pid: Pid)
    requires ValidSteps(before) && Reaches(before, moves, w, pid)
    ensures Converses(w)
  {
    if moves == [] {
      assert Talk([]) == READY;
      assert Rests(w.client, []);
    } else {
      var n := |moves| - 1;
      var v :| Reaches(before, moves[..n], v, pid) && Fair(v, moves[n], pid) && w == Go(v, moves[n], pid);
      ProcessConverses(before, moves[..n], v, pid);
      WorldsKeep(before, moves[..n], v, pid);
      MoveConverses(v, moves[n], pid);
    }
  }

  // ---- each flow ends once

  /** How the process's own record of a cookie must stand. */
  predicate FlowStands(f: Flow, w: World, id: Id) {
    if id !in w.used then f == Unborn
    else if id != w.client.cookie then f == Over
    else match w.phase
      case Idle => f == Granted
      case Reported => f == Retrying
      case Waiting(_, _) => f != Over && f != Wrong
  }

  ghost predicate NeverCancels(p: PinentryData) {
    forall i :: 0 <= i < |p.calls| && p.calls[i].Report? ==> p.calls[i].word != SaysCancelled
  }

  ghost predicate CallsInv(w: World) {
    && (forall id :: FlowStands(FlowOf(w.client.calls, id), w, id))
    && NeverCancels(w.client)
  }

  /** At rest this is what the process alone keeps between two commands. */
  lemma BoundaryIs(w: World, pid: Pid)
    requires WorldInv(w, pid) && w.phase.Idle?
    ensures CallsInv(w) <==> Boundary(w.client, w.used)
  {
    hide DaemonInv, OthersAbsent, FlowOf;
    if CallsInv(w) {
      forall id ensures FlowOf(w.client.calls, id) ==
                        if id !in w.used then Unborn else if id == w.client.cookie then Granted else Over {
        assert FlowStands(FlowOf(w.client.calls, id), w, id);
      }
    }
  }

  lemma StartCalls(w: World, w': World, pid: Pid)
    requires WorldInv(w, pid) && w.phase.Idle? && CallsInv(w) && w'.phase.Waiting?
    requires w'.client.calls == w.client.calls && w'.client.cookie != "" && w'.used == w.used + {w'.client.cookie}
    requires w.client.cookie == "" ==> w'.client.cookie !in w.used
    requires w.client.cookie != "" ==> w'.client.cookie == w.client.cookie
    ensures CallsInv(w')
  {
    hide DaemonInv, OthersAbsent, FlowOf;
    forall id ensures FlowStands(FlowOf(w'.client.calls, id), w', id) {
      assert FlowStands(FlowOf(w.client.calls, id), w, id);
    }
  }

  lemma ReportCalls(w: World, w': World, pid: Pid)
    requires WorldInv(w, pid) && w.phase.Idle? && w.client.awaiting && CallsInv(w)
    requires w'.phase.Reported? && w'.client == w.client.BeginPin() && w'.used == w.used
    ensures CallsInv(w')
  {
    hide DaemonInv, OthersAbsent, FlowOf;
    BoundaryIs(w, pid);
    ReportStep(w.client, w.used, SaysRetry, OrElse(w.client.texts.error, FAILED));
    forall id ensures FlowStands(FlowOf(w'.client.calls, id), w', id) {
      assert FlowStands(FlowOf(w.client.calls, id), w, id);
    }
  }

  lemma AgainCalls(w: World, w': World, pid: Pid)
    requires WorldInv(w, pid) && w.phase.Reported? && CallsInv(w)
    requires w'.phase.Waiting? && w'.client == w.client && w'.used == w.used + {w.client.cookie}
    ensures CallsInv(w')
  {
    hide DaemonInv, OthersAbsent, FlowOf;
    forall id ensures FlowStands(FlowOf(w'.client.calls, id), w', id) {
      assert FlowStands(FlowOf(w.client.calls, id), w, id);
    }
  }

  lemma AnswerCalls(w: World, pid: Pid)
    requires WorldInv(w, pid) && CallsInv(w) && CanMove(w, ReceiveAnswer)
    ensures Boundary(Go(w, ReceiveAnswer, pid).client, w.used)
  {
    hide DaemonInv, OthersAbsent, WaitingInv, FlowOf;
    var p, r := w.client, w.phase.request;
    var asking := if r.confirmOnly then p.ConfirmRequest() else p.PinRequest();
    assert w.used + {p.cookie} == w.used;
    forall id ensures FlowOf(p.calls, id) == if id == p.cookie then FlowOf(p.calls, id) else if id !in w.used then Unborn else Over {
      assert FlowStands(FlowOf(p.calls, id), w, id);
    }
    assert FlowStands(FlowOf(p.calls, p.cookie), w, p.cookie);
    AskStep(p, Go(w, ReceiveAnswer, pid).client, w.used, asking, AnswerTo(w));
  }

  lemma FinishCalls(w: World, s: Socket, env: Env, bye: bool, pid: Pid)
    requires WorldInv(w, pid) && CallsInv(w) && CanMove(w, Finish(s, env, bye))
    ensures Boundary(Go(w, Finish(s, env, bye), pid).client, w.used)
  {
    hide DaemonInv, OthersAbsent, FlowOf, Handle;
    BoundaryIs(w, pid);
    FinalizeStep(w.client, w.used);
  }

  lemma LocalCalls(w: World, c: Command, pid: Pid)
    requires WorldInv(w, pid) && CallsInv(w) && CanMove(w, LocalCommand(c))
    ensures Boundary(w.client.Local(c), w.used)
  {
    hide DaemonInv, OthersAbsent, FlowOf;
    BoundaryIs(w, pid);
  }

  lemma MoveCalls(w: World, move: Move, pid: Pid)
    requires WorldInv(w, pid) && Fair(w, move, pid) && CallsInv(w)
    ensures CallsInv(Go(w, move, pid))
  {
    EveryMove(w, move, pid);
    var w' := Go(w, move, pid);
    hide WorldInv, Boundary, Handle, FlowOf;
    match move
    case Other(_, _) => SameCalls(w, w');
    case LocalCommand(c) =>
      LocalCalls(w, c, pid);
      BoundaryIs(w', pid);
    case GetPinCommand(_, _, uuid, _) => GetPinCalls(w, move, pid);
    case ConfirmCommand(_, _, uuid, _) => GetPinCalls(w, move, pid);
    case AskAgain(_, _, _) => AgainCalls(w, w', pid);
    case Finish(s, env, bye) =>
      FinishCalls(w, s, env, bye, pid);
      BoundaryIs(w', pid);
    case ReceiveAnswer =>
      AnswerCalls(w, pid);
      BoundaryIs(w', pid);
  }

  lemma SameCalls(w: World, w': World)
    requires CallsInv(w) && w' == w.(daemon := w'.daemon)
    ensures CallsInv(w')
  {
    hide FlowOf;
    forall id ensures FlowStands(FlowOf(w'.client.calls, id), w', id) {
      assert FlowStands(FlowOf(w.client.calls, id), w, id);
    }
  }

  lemma GetPinCalls(w: World, move: Move, pid: Pid)
    requires WorldInv(w, pid) && Fair(w, move, pid) && CallsInv(w) && (move.GetPinCommand? || move.ConfirmCommand?)
    ensures CallsInv(Go(w, move, pid))
  {
    hide DaemonInv, OthersAbsent, FlowOf, Handle, CallsInv, Absent;
    var w' := Go(w, move, pid);
    if move.GetPinCommand? && w.client.awaiting {
      ReportCalls(w, w', pid);
    } else {
      StartCalls(w, w', pid);
    }
  }

  function Endings(calls: seq<Call>, id: Id): nat {
    if calls == [] then 0
    else
      var last := calls[|calls| - 1];
      Endings(calls[..|calls| - 1], id) +
      if CallId(last) == id && (if last.Ask? then !last.granted else last.word != SaysRetry) then 1 else 0
  }

  /** A flow that never went wrong has ended once if it is over, and not at all otherwise. */
  lemma {:induction false} FlowCountsEndings(calls: seq<Call>, id: Id)
    requires FlowOf(calls, id) != Wrong
    ensures Endings(calls, id) == if FlowOf(calls, id) == Over then 1 else 0
  {
    if calls != [] {
      FlowCountsEndings(calls[..|calls| - 1], id);
    }
  }

  /** In every interleaving, at every moment, each cookie's flow has ended at most once, by a refusal or by one terminal
      report; a cookie that the process has given up has ended exactly once, the one it holds not at all. */
  lemma {:induction false} ComposedFlowsEndOnce(before: seq<Step>, moves: seq<Move>, w: World, pid: Pid)
    requires ValidSteps(before) && Reaches(before, moves, w, pid)
    ensures CallsInv(w)
    ensures forall id :: Endings(w.client.calls, id) == if id in w.used && id != w.client.cookie then 1 else 0
  {
    if moves != [] {
      var n := |moves| - 1;
      var v :| Reaches(before, moves[..n], v, pid) && Fair(v, moves[n], pid) && w == Go(v, moves[n], pid);
      ComposedFlowsEndOnce(before, moves[..n], v, pid);
      WorldsKeep(before, moves[..n], v, pid);
      MoveCalls(v, moves[n], pid);
    }
    forall id ensures Endings(w.client.calls, id) == if id in w.used && id != w.client.cookie then 1 else 0 {
      assert FlowStands(FlowOf(w.client.calls, id), w, id);
      FlowCountsEndings(w.client.calls, id);
    }
  }
}
