/** Where a password that the pinentry process prints comes from, in every interleaving with the daemon and its peers. */
module PinentryAnswers {
  import opened Base
  import opened Environments
  import opened ProviderRegistries
  import opened AgentCore
  import opened PinentryManagers
  import opened Daemons
  import opened TableAgreement
  import opened SecretRouting
  import opened PinentryClients
  import opened Composition
  import opened PinentryWorlds

  /** In the world `v`, where the process waits for the answer to `r`, the UI in charge answers it, or calls it off. */
  predicate Decides(v: World, move: Move, r: PinentryRequest) {
    && v.phase.Waiting? && v.phase.request == r
    && move.Other? && (move.input.RespondInput? || move.input.CancelInput?) && move.input.id == r.cookie
    && v.daemon.core.registry.Authorizes(move.input.s)
  }

  /** What the requester must be told then. */
  function Verdict(input: Input, r: PinentryRequest): Msg
    requires input.RespondInput? || input.CancelInput?
  {
    PinentryReply(r.cookie, if input.CancelInput? then PinOutcome.Declined else if r.confirmOnly then Confirmed else Password(input.response))
  }

  /** The k-th move of the run is that decision. */
  ghost predicate DecidedAt(before: seq<Step>, moves: seq<Move>, k: nat, v: World, r: PinentryRequest, pid: Pid) {
    k < |moves| && Reaches(before, moves[..k], v, pid) && Decides(v, moves[k], r)
  }

  lemma DecidedInTime(before: seq<Step>, moves: seq<Move>, n: nat, k: nat, v: World, r: PinentryRequest, pid: Pid)
    requires n <= |moves| && DecidedAt(before, moves[..n], k, v, r, pid)
    ensures DecidedAt(before, moves, k, v, r, pid) && moves[..n][k] == moves[k]
  {
    hide Reaches, Decides;
    assert moves[..n][..k] == moves[..k];
  }

  /** A waiting process has an answer only if somebody else moved. */
  lemma OthersAnswer(v: World, move: Move, pid: Pid)
    requires WorldInv(v, pid) && Fair(v, move, pid) && Go(v, move, pid).phase.Waiting? && AnswerTo(Go(v, move, pid)).Some?
    ensures move.Other?
  {
    hide Handle, DaemonInv, OthersAbsent;
    if !move.Other? {
      EveryMove(v, move, pid);
      AskOffersNothing(v, move, pid);
    }
  }

  lemma AskOffersNothing(v: World, move: Move, pid: Pid)
    requires WorldInv(v, pid) && Fair(v, move, pid) && !move.Other? && Go(v, move, pid).phase.Waiting?
    ensures AnswerTo(Go(v, move, pid)).None?
  {
    hide Handle, DaemonInv, OthersAbsent, PinentryData.Local, PinentryData.EndPin, PinentryData.EndConfirm, PinentryData.BeginPin,
      PinentryData.PinRequest, PinentryData.ConfirmRequest;
    var c := if move.GetPinCommand? || move.ConfirmCommand? then v.client.EnsureCookie(move.uuid) else v.client;
    var a := if move.ConfirmCommand? then c.ConfirmRequest() else c.PinRequest();
    RequestCookies(c);
    RepliesGrow(v.daemon, PinentryInput(move.s, pid, Message(a, move.attempts)), a.cookie, move.env);
  }

  lemma RequestCookies(c: PinentryData)
    ensures c.PinRequest().cookie == c.cookie && c.ConfirmRequest().cookie == c.cookie
  {
  }

  /** A move of somebody else either offers the answer, or finds it offered already. */
  lemma OfferStep(v: World, input: Input, env: Env, r: PinentryRequest, n: nat, pid: Pid)
    requires WorldInv(v, pid) && Fair(v, Other(input, env), pid) && v.phase == Waiting(r, n)
    ensures var w := v.(daemon := Handle(v.daemon, input, env));
            AnswerTo(w).Some? && AnswerTo(w) != AnswerTo(v) ==>
              Decides(v, Other(input, env), r) && AnswerTo(w).value == Verdict(input, r)
  {
    hide Handle, DaemonInv, OthersAbsent, PinentryWorlds.AnsweredInv;
    var d, id := v.daemon, r.cookie;
    RepliesGrow(d, input, id, env);
    if |RepliesFor(d.core.replies, id)| == n {
      OffersForPending(d, input, id, r);
    }
  }

  /** An answer that reaches the waiting process is the verdict on its very request, given while it waited, by the UI in
      charge at that moment. */
  lemma {:induction false} AnswersStem(before: seq<Step>, moves: seq<Move>, w: World, pid: Pid)
    requires ValidSteps(before) && Reaches(before, moves, w, pid) && w.phase.Waiting? && AnswerTo(w).Some?
    ensures exists k: nat, v :: DecidedAt(before, moves, k, v, w.phase.request, pid) && AnswerTo(w).value == Verdict(moves[k].input, w.phase.request)
    decreases |moves|
  {
    hide Handle, DaemonInv, WorldInv, Verdict;
    var n := |moves| - 1;
    var v :| Reaches(before, moves[..n], v, pid) && Fair(v, moves[n], pid) && w == Go(v, moves[n], pid);
    WorldsKeep(before, moves[..n], v, pid);
    OthersAnswer(v, moves[n], pid);
    var r := w.phase.request;
    OfferStep(v, moves[n].input, moves[n].env, r, w.phase.offered, pid);
    if AnswerTo(w) == AnswerTo(v) {
      AnswersStem(before, moves[..n], v, pid);
      var k: nat, u :| DecidedAt(before, moves[..n], k, u, r, pid) && AnswerTo(v).value == Verdict(moves[..n][k].input, r);
      DecidedInTime(before, moves, n, k, u, r, pid);
    } else {
      assert DecidedAt(before, moves, n, v, r, pid);
    }
  }

  /** What the process prints once it hears the verdict. */
  function Printout(input: Input, r: PinentryRequest): seq<Line> {
    if !input.RespondInput? || (!r.confirmOnly && input.response == "") then [CancelledLine]
    else if r.confirmOnly then [OkLine("")]
    else [DataLine(input.response), OkLine("")]
  }

  lemma VerdictPrinted(w: World, pid: Pid, input: Input)
    requires WorldInv(w, pid) && CanMove(w, ReceiveAnswer) && (input.RespondInput? || input.CancelInput?)
    requires AnswerTo(w).value == Verdict(input, w.phase.request)
    ensures Go(w, ReceiveAnswer, pid).client.out == w.client.out + Printout(input, w.phase.request)
  {
    hide DaemonInv, OthersAbsent, WaitingInv, AnswerTo;
    var p, reply := w.client, AnswerTo(w);
    if w.phase.request.confirmOnly {
      CommandPrints(p, Confirm, p.cookie, reply);
    } else {
      EndPinPrints(p, reply);
    }
  }

  /** Whatever the interleaving, the process prints as password exactly what the UI in charge typed in answer to its own
      request while it was waiting, and prints a cancellation if that UI typed nothing or called it off. */
  lemma PasswordIsTheUsers(before: seq<Step>, moves: seq<Move>, w: World, pid: Pid)
    requires ValidSteps(before) && Reaches(before, moves, w, pid) && CanMove(w, ReceiveAnswer)
    ensures exists k: nat, v :: DecidedAt(before, moves, k, v, w.phase.request, pid)
                                && Go(w, ReceiveAnswer, pid).client.out == w.client.out + Printout(moves[k].input, w.phase.request)
  {
    hide Handle, DaemonInv, Reaches, Verdict, WorldInv, Printout;
    WorldsKeep(before, moves, w, pid);
    AnswersStem(before, moves, w, pid);
    var k: nat, v :| DecidedAt(before, moves, k, v, w.phase.request, pid) && AnswerTo(w).value == Verdict(moves[k].input, w.phase.request);
    VerdictPrinted(w, pid, moves[k].input);
  }

  // ---- every line of data

  /** gpg-agent asked for this piece of information. */
  ghost predicate AskedFor(moves: seq<Move>, k: nat, data: string) {
    k < |moves| && moves[k] == LocalCommand(GetInfo(Some(data)))
  }

  /** The UI in charge typed it as a password for a request of the process. */
  ghost predicate TypedAt(before: seq<Step>, moves: seq<Move>, k: nat, v: World, r: PinentryRequest, data: string, pid: Pid) {
    DecidedAt(before, moves, k, v, r, pid) && !r.confirmOnly && moves[k].input.RespondInput? && moves[k].input.response == data
  }

  ghost predicate Accounted(before: seq<Step>, moves: seq<Move>, data: string, pid: Pid) {
    (exists k: nat :: AskedFor(moves, k, data)) || (exists k: nat, v, r :: TypedAt(before, moves, k, v, r, data, pid))
  }

  lemma AccountedLonger(before: seq<Step>, moves: seq<Move>, n: nat, data: string, pid: Pid)
    requires n <= |moves| && Accounted(before, moves[..n], data, pid)
    ensures Accounted(before, moves, data, pid)
  {
    hide Reaches, Decides;
    if k: nat :| AskedFor(moves[..n], k, data) {
      assert AskedFor(moves, k, data);
    } else {
      var k: nat, v, r :| TypedAt(before, moves[..n], k, v, r, data, pid);
      DecidedInTime(before, moves, n, k, v, r, pid);
      assert TypedAt(before, moves, k, v, r, data, pid);
    }
  }

  /** The moves of the process that print nothing, or no data. */
  lemma OtherMovesPrint(w: World, move: Move, pid: Pid)
    requires CanMove(w, move) && !move.LocalCommand? && !move.ReceiveAnswer?
    ensures var out' := Go(w, move, pid).client.out;
            out' == w.client.out || out' == w.client.out + [OkLine("closing connection")]
  {
    hide Handle, PinentryData.PinRequest, PinentryData.ConfirmRequest;
    if move.Finish? && move.bye {
      CommandPrints(w.client, Bye, "", None);
    }
  }

  lemma LocalMovePrints(w: World, command: Command, pid: Pid)
    requires CanMove(w, LocalCommand(command))
    ensures Go(w, LocalCommand(command), pid).client.out ==
            w.client.out + match command case GetInfo(Some(data)) => [DataLine(data), OkLine("")] case _ => [OkLine("")]
  {
    CommandPrints(w.client, command, "", None);
  }

  /** Nothing that the process prints as data is made up: gpg-agent asked for that information, or the UI in charge typed
      that password in answer to a request of this process. */
  lemma {:induction false} EveryDataLine(before: seq<Step>, moves: seq<Move>, w: World, pid: Pid, i: nat)
    requires ValidSteps(before) && Reaches(before, moves, w, pid) && i < |w.client.out| && w.client.out[i].DataLine?
    ensures Accounted(before, moves, w.client.out[i].data, pid)
    decreases |moves|
  {
    hide Handle, CanMove, Go, Accounted, AnswerTo;
    var n := |moves| - 1;
    var v :| Reaches(before, moves[..n], v, pid) && Fair(v, moves[n], pid) && w == Go(v, moves[n], pid);
    if i < |v.client.out| && w.client.out[i] == v.client.out[i] {
      EveryDataLine(before, moves[..n], v, pid, i);
      AccountedLonger(before, moves, n, w.client.out[i].data, pid);
    } else {
      NewDataLine(before, moves, v, w, pid, i);
    }
  }

  lemma NewDataLine(before: seq<Step>, moves: seq<Move>, v: World, w: World, pid: Pid, i: nat)
    requires ValidSteps(before) && moves != [] && Reaches(before, moves[..|moves| - 1], v, pid)
    requires var move := moves[|moves| - 1]; CanMove(v, move) && w == Go(v, move, pid)
    requires i < |w.client.out| && w.client.out[i].DataLine? && (i < |v.client.out| ==> w.client.out[i] != v.client.out[i])
    ensures Accounted(before, moves, w.client.out[i].data, pid)
  {
    hide Handle, Go, AnswerTo, Reaches;
    var n, data := |moves| - 1, w.client.out[i].data;
    match moves[n]
    case LocalCommand(command) =>
      LocalMovePrints(v, command, pid);
      assert AskedFor(moves, n, data);
    case ReceiveAnswer =>
      PasswordIsTheUsers(before, moves[..n], v, pid);
      var k: nat, u :| DecidedAt(before, moves[..n], k, u, v.phase.request, pid)
                       && w.client.out == v.client.out + Printout(moves[..n][k].input, v.phase.request);
      DecidedInTime(before, moves, n, k, u, v.phase.request, pid);
      assert TypedAt(before, moves, k, u, v.phase.request, data, pid);
    case _ =>
      OtherMovesPrint(v, moves[n], pid);
  }
}
