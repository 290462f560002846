/** The pinentry process: it serves gpg-agent's commands, and asks the daemon to ask the user. */
module PinentryClients {
  import opened Base
  import opened AgentCore
  import opened PinentryManagers

  datatype Texts = Texts(
    description: string, prompt: string, title: string, error: string,
    okText: string, cancelText: string, notOkText: string, keyinfo: string, repeat: string)

  const NO_TEXTS := Texts("", "", "", "", "", "", "", "", "")

  /** A `pinentry_request` as this process writes it. */
  datatype Asking = Asking(
    cookie: Id, title: string, prompt: string, description: string, error: string, keyinfo: Id, repeat: bool, confirmOnly: bool)

  /** An exchange with the daemon; `granted` says whether the answer let the flow go on. */
  datatype Call =
    | Ask(asking: Asking, granted: bool)
    | Report(id: Id, word: ResultWord, error: string)

  datatype Line = OkLine(comment: string) | CancelledLine | DataLine(data: string)

  datatype Field = Description | Prompt | Title | ErrorText | OkText | CancelText | NotOkText | KeyInfo | Repeat

  datatype Command =
    | SetField(field: Field, arg: string)
    | GetPin
    | Confirm
    | Bye
    | Reset
    | GetInfo(data: Option<string>)
    | Acknowledge

  const FAILED := "Authentication failed"

  function OrElse(s: string, other: string): string {
    if s == "" then other else s
  }

  datatype PinentryData = PinentryData(texts: Texts, cookie: Id, awaiting: bool, running: bool, calls: seq<Call>, out: seq<Line>)
  {
    function Print(line: Line): PinentryData {
      this.(out := out + [line])
    }

    function EnsureCookie(uuid: Id): PinentryData {
      if cookie == "" then this.(cookie := uuid) else this
    }

    function ResetFlow(): PinentryData {
      this.(awaiting := false, cookie := "")
    }

    /** `reportTerminalResult`; what the daemon answers makes no difference. */
    function ReportResult(word: ResultWord, error: string): PinentryData {
      if cookie == "" then this
      else
        var c := this.(calls := calls + [Report(cookie, word, error)]);
        if word == SaysRetry then c.(awaiting := false) else c.ResetFlow()
    }

    /** What the process reports when the conversation ends. */
    function LastWord(): ResultWord {
      if texts.error != "" then SaysError else if awaiting then SaysSuccess else SaysCancelled
    }

    /** `finalizeOnStreamClose`, and the same steps under `BYE`. */
    function Finalize(): PinentryData {
      if awaiting || cookie != "" then ReportResult(LastWord(), texts.error) else this
    }

    function BeginPin(): PinentryData {
      if awaiting then ReportResult(SaysRetry, OrElse(texts.error, FAILED)) else this
    }

    function PinRequest(): Asking {
      Asking(cookie, OrElse(texts.title, "GPG Key"), OrElse(texts.prompt, "Enter passphrase:"), texts.description,
             texts.error, texts.keyinfo, texts.repeat != "", false)
    }

    function ConfirmRequest(): Asking {
      Asking(cookie, OrElse(texts.title, "Confirm"), OrElse(texts.description, "Please confirm"), "", "", "", false, true)
    }

    /** The daemon's answer to a request, or none if the exchange failed. */
    function Receive(asking: Asking, reply: Option<Msg>): PinentryData {
      var granted := Grants(asking, reply);
      var c := this.(calls := calls + [Ask(asking, granted)]);
      if granted then c.(awaiting := true) else c.ResetFlow()
    }

    function ClearError(): PinentryData {
      this.(texts := texts.(error := ""))
    }

    function EndPin(reply: Option<Msg>): PinentryData {
      var c := Receive(PinRequest(), reply);
      (if Grants(PinRequest(), reply) && reply.value.outcome.password != ""
       then c.Print(DataLine(reply.value.outcome.password)).Print(OkLine("")) else c.Print(CancelledLine)).ClearError()
    }

    function EndConfirm(reply: Option<Msg>): PinentryData {
      var c := Receive(ConfirmRequest(), reply);
      c.Print(if Grants(ConfirmRequest(), reply) then OkLine("") else CancelledLine).ClearError()
    }

    function WithField(field: Field, arg: string): PinentryData {
      this.(texts :=
        match field
        case Description => texts.(description := arg)
        case Prompt => texts.(prompt := arg)
        case Title => texts.(title := arg)
        case ErrorText => texts.(error := arg)
        case OkText => texts.(okText := arg)
        case CancelText => texts.(cancelText := arg)
        case NotOkText => texts.(notOkText := arg)
        case KeyInfo => texts.(keyinfo := arg)
        case Repeat => texts.(repeat := arg))
    }

    /** Commands that do not talk to the daemon. */
    function Local(command: Command): PinentryData
      requires !command.GetPin? && !command.Confirm? && !command.Bye?
    {
      match command
      case SetField(field, arg) => WithField(field, arg).Print(OkLine(""))
      case Reset => this.(texts := NO_TEXTS).Print(OkLine(""))
      case GetInfo(data) => (if data.Some? then Print(DataLine(data.value)) else this).Print(OkLine(""))
      case Acknowledge => Print(OkLine(""))
    }

    /** One command from start to end; `reply` answers the request it makes, if any. */
    function Handle(command: Command, uuid: Id, reply: Option<Msg>): PinentryData {
      if !running then this
      else match command
        case GetPin => BeginPin().EnsureCookie(uuid).EndPin(reply)
        case Confirm => EnsureCookie(uuid).EndConfirm(reply)
        case Bye => Finalize().Print(OkLine("closing connection")).(running := false).Finalize()
        case _ => Local(command)
    }

    /** The command stream ends. */
    function HangUp(): PinentryData {
      if !running then this else Finalize().(running := false)
    }
  }

  const READY := PinentryData(NO_TEXTS, "", false, true, [], [OkLine("BB Auth Pinentry")])

  predicate Grants(asking: Asking, reply: Option<Msg>) {
    reply.Some? && reply.value.PinentryReply? &&
    if asking.confirmOnly then reply.value.outcome.Confirmed? else reply.value.outcome.Password?
  }

  // ---- the life of one cookie

  datatype Flow = Unborn | Granted | Retrying | Over | Wrong

  /** A flow is asked for, perhaps retried and asked for again, and ends once: refused, or reported. */
  function After(f: Flow, call: Call): Flow {
    match call
    case Ask(_, granted) => if f == Over || f == Wrong then Wrong else if granted then Granted else Over
    case Report(_, word, _) => if f != Granted then Wrong else if word == SaysRetry then Retrying else Over
  }

  function CallId(call: Call): Id {
    if call.Ask? then call.asking.cookie else call.id
  }

  function FlowOf(calls: seq<Call>, id: Id): Flow {
    if calls == [] then Unborn
    else
      var before, last := FlowOf(calls[..|calls| - 1], id), calls[|calls| - 1];
      if CallId(last) == id then After(before, last) else before
  }

  lemma FlowStep(calls: seq<Call>, call: Call, id: Id)
    ensures FlowOf(calls + [call], id) == if CallId(call) == id then After(FlowOf(calls, id), call) else FlowOf(calls, id)
  {
    assert (calls + [call])[..|calls|] == calls;
  }

  /** Between two commands: the process awaits an outcome exactly if it holds a cookie; that cookie's flow is the only one
      open; and no report says "cancelled". */
  ghost predicate Boundary(p: PinentryData, used: set<Id>) {
    && (p.awaiting <==> p.cookie != "")
    && (p.cookie != "" ==> p.cookie in used)
    && (forall id :: FlowOf(p.calls, id) ==
          if id !in used then Unborn else if id == p.cookie then Granted else Over)
    && (!p.running ==> p.cookie == "")
    && "" !in used
    && forall i :: 0 <= i < |p.calls| && p.calls[i].Report? ==> p.calls[i].word != SaysCancelled
  }

  lemma ReportStep(p: PinentryData, used: set<Id>, word: ResultWord, error: string)
    requires Boundary(p, used) && p.cookie != "" && word != SaysCancelled
    ensures var q := p.ReportResult(word, error);
            && (word == SaysRetry ==> q.cookie == p.cookie && !q.awaiting && q.running == p.running)
            && (forall id :: FlowOf(q.calls, id) ==
                  if id == p.cookie then (if word == SaysRetry then Retrying else Over) else FlowOf(p.calls, id))
            && (word != SaysRetry ==> Boundary(q, used))
            && (forall i :: 0 <= i < |q.calls| && q.calls[i].Report? ==> q.calls[i].word != SaysCancelled)
  {
    var call := Report(p.cookie, word, error);
    forall id ensures FlowOf(p.calls + [call], id) == if id == p.cookie then After(FlowOf(p.calls, id), call) else FlowOf(p.calls, id) {
      FlowStep(p.calls, call, id);
    }
  }

  lemma FinalizeStep(p: PinentryData, used: set<Id>)
    requires Boundary(p, used)
    ensures Boundary(p.Finalize(), used) && p.Finalize().cookie == "" && p.Finalize().running == p.running
  {
    if p.cookie != "" {
      ReportStep(p, used, p.LastWord(), p.texts.error);
    }
  }

  /** The answer to a request settles the flow: granted, or over. */
  lemma AskStep(p: PinentryData, q: PinentryData, used: set<Id>, asking: Asking, reply: Option<Msg>)
    requires p.cookie != "" && asking.cookie == p.cookie && "" !in used && p.running
    requires forall id :: FlowOf(p.calls, id) ==
               if id == p.cookie then FlowOf(p.calls, id) else if id !in used then Unborn else Over
    requires FlowOf(p.calls, p.cookie) != Over && FlowOf(p.calls, p.cookie) != Wrong
    requires forall i :: 0 <= i < |p.calls| && p.calls[i].Report? ==> p.calls[i].word != SaysCancelled
    requires var r := p.Receive(asking, reply); q == r.(texts := q.texts, out := q.out)
    ensures Boundary(q, used + {p.cookie})
  {
    hide FlowOf;
    var call := Ask(asking, Grants(asking, reply));
    forall id ensures FlowOf(q.calls, id) == if id == p.cookie then After(FlowOf(p.calls, id), call) else FlowOf(p.calls, id) {
      FlowStep(p.calls, call, id);
    }
  }

  lemma GetPinStep(p: PinentryData, used: set<Id>, uuid: Id, reply: Option<Msg>)
    requires Boundary(p, used) && uuid != "" && uuid !in used && p.running
    ensures Boundary(p.Handle(GetPin, uuid, reply), used + {p.EnsureCookie(uuid).cookie})
  {
    if p.awaiting {
      ReportStep(p, used, SaysRetry, OrElse(p.texts.error, FAILED));
    }
    var q := p.BeginPin().EnsureCookie(uuid);
    AskStep(q, q.EndPin(reply), used, q.PinRequest(), reply);
  }

  lemma ConfirmStep(p: PinentryData, used: set<Id>, uuid: Id, reply: Option<Msg>)
    requires Boundary(p, used) && uuid != "" && uuid !in used && p.running
    ensures Boundary(p.Handle(Confirm, uuid, reply), used + {p.EnsureCookie(uuid).cookie})
  {
    var q := p.EnsureCookie(uuid);
    AskStep(q, q.EndConfirm(reply), used, q.ConfirmRequest(), reply);
  }

  // ---- what one command prints and sends, word for word

  /** The password that an answer carries, if it carries one that is not empty. */
  function Typed(reply: Option<Msg>): Option<string> {
    match reply
    case Some(PinentryReply(_, Password(pw))) => if pw == "" then None else Some(pw)
    case _ => None
  }

  predicate SaysYes(reply: Option<Msg>) {
    reply.Some? && reply.value.PinentryReply? && reply.value.outcome == Confirmed
  }

  /** GETPIN hands gpg-agent the very password in the answer, and says so; anything else counts as a cancellation. */
  lemma GetPinPrints(p: PinentryData, uuid: Id, reply: Option<Msg>)
    requires p.running
    ensures p.Handle(GetPin, uuid, reply).out ==
            p.out + if Typed(reply).Some? then [DataLine(Typed(reply).value), OkLine("")] else [CancelledLine]
  {
    hide PinentryData.EndPin;
    EndPinPrints(p.BeginPin().EnsureCookie(uuid), reply);
  }

  lemma EndPinPrints(p: PinentryData, reply: Option<Msg>)
    ensures p.EndPin(reply).out == p.out + if Typed(reply).Some? then [DataLine(Typed(reply).value), OkLine("")] else [CancelledLine]
  {
    hide PinentryData.PinRequest;
    PinRequestKind(p);
  }

  /** The other commands. */
  lemma CommandPrints(p: PinentryData, command: Command, uuid: Id, reply: Option<Msg>)
    requires p.running && !command.GetPin?
    ensures p.Handle(command, uuid, reply).out ==
            p.out +
            match command
            case Confirm => [if SaysYes(reply) then OkLine("") else CancelledLine]
            case Bye => [OkLine("closing connection")]
            case GetInfo(Some(data)) => [DataLine(data), OkLine("")]
            case _ => [OkLine("")]
  {
  }

  /** The text that the daemon will show in place of each name. */
  function TextOf(texts: Texts, field: Field): string {
    match field
    case Description => texts.description
    case Prompt => texts.prompt
    case Title => texts.title
    case ErrorText => texts.error
    case OkText => texts.okText
    case CancelText => texts.cancelText
    case NotOkText => texts.notOkText
    case KeyInfo => texts.keyinfo
    case Repeat => texts.repeat
  }

  lemma FieldSet(p: PinentryData, f: Field, arg: string, field: Field)
    ensures TextOf(p.WithField(f, arg).texts, field) == if f == field then arg else TextOf(p.texts, field)
  {
  }

  lemma RequestTexts(p: PinentryData, command: Command, uuid: Id, reply: Option<Msg>)
    requires p.running && (command.GetPin? || command.Confirm?)
    ensures p.Handle(command, uuid, reply).texts == p.texts.(error := "")
  {
  }

  /** A text stands until it is set again or all are reset; a request clears the error text alone. */
  lemma TextAfter(p: PinentryData, command: Command, uuid: Id, reply: Option<Msg>, field: Field)
    requires p.running
    ensures TextOf(p.Handle(command, uuid, reply).texts, field) ==
            match command
            case SetField(f, arg) => if f == field then arg else TextOf(p.texts, field)
            case Reset => ""
            case GetPin => if field.ErrorText? then "" else TextOf(p.texts, field)
            case Confirm => if field.ErrorText? then "" else TextOf(p.texts, field)
            case _ => TextOf(p.texts, field)
  {
    hide PinentryData.WithField, PinentryData.BeginPin, PinentryData.EndPin, PinentryData.EndConfirm;
    match command
    case SetField(f, arg) => FieldSet(p, f, arg, field);
    case GetPin => RequestTexts(p, command, uuid, reply);
    case Confirm => RequestTexts(p, command, uuid, reply);
    case _ =>
  }

  /** A request is preceded by a retry report if the last answer still awaits its outcome, and carries the texts set. */
  lemma GetPinAsks(p: PinentryData, uuid: Id, reply: Option<Msg>)
    requires p.running && (p.awaiting ==> p.cookie != "")
    ensures var c := p.Handle(GetPin, uuid, reply);
            var id := if p.cookie == "" then uuid else p.cookie;
            var t := p.texts;
            var granted := reply.Some? && reply.value.PinentryReply? && reply.value.outcome.Password?;
            && c.calls ==
               p.calls + (if p.awaiting then [Report(p.cookie, SaysRetry, if t.error == "" then "Authentication failed" else t.error)] else []) +
               [Ask(Asking(id, if t.title == "" then "GPG Key" else t.title, if t.prompt == "" then "Enter passphrase:" else t.prompt,
                           t.description, t.error, t.keyinfo, t.repeat != "", false), granted)]
            && c.awaiting == granted && c.cookie == (if granted then id else "") && c.running
  {
    hide PinentryData.EndPin, PinentryData.BeginPin;
    BeginReports(p);
    EndAsks(p.BeginPin().EnsureCookie(uuid), reply);
  }

  lemma BeginReports(p: PinentryData)
    requires p.awaiting ==> p.cookie != ""
    ensures p.BeginPin() ==
            p.(awaiting := false,
               calls := p.calls + if p.awaiting then [Report(p.cookie, SaysRetry, if p.texts.error == "" then "Authentication failed" else p.texts.error)] else [])
  {
  }

  lemma EndAsks(p: PinentryData, reply: Option<Msg>)
    ensures var c, t := p.EndPin(reply), p.texts;
            var granted := reply.Some? && reply.value.PinentryReply? && reply.value.outcome.Password?;
            && c.calls ==
               p.calls + [Ask(Asking(p.cookie, if t.title == "" then "GPG Key" else t.title, if t.prompt == "" then "Enter passphrase:" else t.prompt,
                                     t.description, t.error, t.keyinfo, t.repeat != "", false), granted)]
            && c.awaiting == granted && c.cookie == (if granted then p.cookie else "") && c.running == p.running
  {
    hide PinentryData.PinRequest;
    PinRequestTexts(p);
  }

  lemma PinRequestKind(p: PinentryData)
    ensures !p.PinRequest().confirmOnly
  {
  }

  lemma PinRequestTexts(p: PinentryData)
    ensures p.PinRequest() ==
            Asking(p.cookie, if p.texts.title == "" then "GPG Key" else p.texts.title,
                   if p.texts.prompt == "" then "Enter passphrase:" else p.texts.prompt,
                   p.texts.description, p.texts.error, p.texts.keyinfo, p.texts.repeat != "", false)
  {
  }

  lemma ConfirmAsks(p: PinentryData, uuid: Id, reply: Option<Msg>)
    requires p.running
    ensures var c := p.Handle(Confirm, uuid, reply);
            var id := if p.cookie == "" then uuid else p.cookie;
            var t := p.texts;
            && c.calls ==
               p.calls + [Ask(Asking(id, if t.title == "" then "Confirm" else t.title,
                                     if t.description == "" then "Please confirm" else t.description, "", "", "", false, true), SaysYes(reply))]
            && c.awaiting == SaysYes(reply) && c.cookie == (if SaysYes(reply) then id else "") && c.running
  {
  }

  /** Leaving, with a farewell or without, reports the flow that is held: as failed if an error text is set. */
  lemma LeavingReports(p: PinentryData, uuid: Id, reply: Option<Msg>)
    requires p.running && (p.awaiting <==> p.cookie != "")
    ensures var reports := if p.cookie == "" then [] else [Report(p.cookie, if p.texts.error == "" then SaysSuccess else SaysError, p.texts.error)];
            && p.Handle(Bye, uuid, reply).calls == p.calls + reports
            && p.HangUp().calls == p.calls + reports
            && p.HangUp().out == p.out
            && !p.Handle(Bye, uuid, reply).running && !p.HangUp().running
  {
  }

  /** All other commands are between the process and gpg-agent. */
  lemma OthersAskNothing(p: PinentryData, command: Command, uuid: Id, reply: Option<Msg>)
    requires p.running && !command.GetPin? && !command.Confirm? && !command.Bye?
    ensures p.Handle(command, uuid, reply) == p.(texts := p.Handle(command, uuid, reply).texts, out := p.Handle(command, uuid, reply).out)
  {
  }

  // ---- conversations

  /** A command, a unique id in case it starts a flow, and the daemon's answer in case it asks for one. */
  datatype Turn = Turn(command: Command, uuid: Id, reply: Option<Msg>)

  function Talk(turns: seq<Turn>): PinentryData {
    if turns == [] then READY
    else
      var last := turns[|turns| - 1];
      Talk(turns[..|turns| - 1]).Handle(last.command, last.uuid, last.reply)
  }

  ghost predicate FreshTurns(turns: seq<Turn>) {
    && (forall i :: 0 <= i < |turns| ==> turns[i].uuid != "")
    && (forall i, j :: 0 <= i < j < |turns| ==> turns[i].uuid != turns[j].uuid)
  }

  /** The cookies of the conversation so far. */
  function UsedBy(turns: seq<Turn>): set<Id> {
    if turns == [] then {}
    else
      var n := |turns| - 1;
      UsedBy(turns[..n]) +
      if Talk(turns[..n]).running && (turns[n].command.GetPin? || turns[n].command.Confirm?)
      then {Talk(turns[..n]).EnsureCookie(turns[n].uuid).cookie} else {}
  }

  function Supplied(turns: seq<Turn>): set<Id> {
    set i | 0 <= i < |turns| :: turns[i].uuid
  }

  /** A turn keeps the cookie, gives it up, or takes the supplied one. */
  lemma CookieAfter(p: PinentryData, turn: Turn)
    ensures p.Handle(turn.command, turn.uuid, turn.reply).cookie in {"", p.cookie, turn.uuid}
  {
    hide PinentryData.PinRequest, PinentryData.ConfirmRequest;
  }

  lemma {:induction false} UsedWereSupplied(turns: seq<Turn>)
    ensures UsedBy(turns) <= Supplied(turns)
    ensures Talk(turns).cookie != "" ==> Talk(turns).cookie in Supplied(turns)
  {
    hide PinentryData.Handle;
    if turns != [] {
      var n := |turns| - 1;
      CookieAfter(Talk(turns[..n]), turns[n]);
      UsedWereSupplied(turns[..n]);
      assert forall i :: 0 <= i < n ==> turns[..n][i] == turns[i];
      assert Supplied(turns[..n]) <= Supplied(turns) && turns[n].uuid in Supplied(turns);
    }
  }

  /** Whatever gpg-agent says and whatever the daemon answers, at every command boundary each cookie's flow is unborn,
      held, or over, and over means refused once or reported once. */
  lemma {:induction false} EveryFlowEndsOnce(turns: seq<Turn>)
    requires FreshTurns(turns)
    ensures Boundary(Talk(turns), UsedBy(turns))
  {
    if turns != [] {
      var n := |turns| - 1;
      var p, used, turn := Talk(turns[..n]), UsedBy(turns[..n]), turns[n];
      EveryFlowEndsOnce(turns[..n]);
      UsedWereSupplied(turns[..n]);
      assert forall i :: 0 <= i < n ==> turns[..n][i] == turns[i];
      assert turn.uuid !in Supplied(turns[..n]);
      TurnStep(p, used, turn);
    }
  }

  lemma TurnStep(p: PinentryData, used: set<Id>, turn: Turn)
    requires Boundary(p, used) && turn.uuid != "" && turn.uuid !in used
    ensures Boundary(p.Handle(turn.command, turn.uuid, turn.reply),
                     used + if p.running && (turn.command.GetPin? || turn.command.Confirm?) then {p.EnsureCookie(turn.uuid).cookie} else {})
  {
    if p.running {
      match turn.command
      case GetPin => GetPinStep(p, used, turn.uuid, turn.reply);
      case Confirm => ConfirmStep(p, used, turn.uuid, turn.reply);
      case Bye =>
        FinalizeStep(p, used);
        assert used + {} == used;
      case _ => assert used + {} == used;
    } else {
      assert used + {} == used;
    }
  }

  /** However the conversation ends, no flow is left open. */
  lemma NoFlowLeftOpen(turns: seq<Turn>, id: Id)
    requires FreshTurns(turns)
    ensures var p := Talk(turns).HangUp();
            p.cookie == "" && !p.awaiting && FlowOf(p.calls, id) == if id in UsedBy(turns) then Over else Unborn
  {
    EveryFlowEndsOnce(turns);
    FinalizeStep(Talk(turns), UsedBy(turns));
  }

  // ---- reading command lines

  /** What reading a line depends on: case folding, percent decoding, and the process id that `GETINFO pid` reports. */
  datatype Reading = Reading(fold: char -> char, decode: string -> string, pid: string)

  function IndexOf(s: string, c: char): (n: nat)
    ensures n <= |s|
  {
    if s == "" || s[0] == c then 0 else 1 + IndexOf(s[1..], c)
  }

  /** Equal but for case. */
  predicate SameWord(a: string, b: string, fold: char -> char) {
    |a| == |b| && forall i :: 0 <= i < |a| ==> fold(a[i]) == fold(b[i])
  }

  function Information(topic: string, reading: Reading): Option<string> {
    if topic == "pid" then Some(reading.pid)
    else if topic == "version" then Some("1.0.0")
    else if topic == "flavor" then Some("bb")
    else if topic == "ttyinfo" then Some("")
    else None
  }

  function FieldName(field: Field): string {
    match field
    case Description => "SETDESC"
    case Prompt => "SETPROMPT"
    case Title => "SETTITLE"
    case ErrorText => "SETERROR"
    case OkText => "SETOK"
    case CancelText => "SETCANCEL"
    case NotOkText => "SETNOTOK"
    case KeyInfo => "SETKEYINFO"
    case Repeat => "SETREPEAT"
  }

  const FIELDS := [Description, Prompt, Title, ErrorText, OkText, CancelText, NotOkText, KeyInfo, Repeat]

  /** The first of `fields` that the word names. */
  function FieldNamed(cmd: string, fields: seq<Field>, fold: char -> char): Option<Field> {
    if fields == [] then None
    else if SameWord(cmd, FieldName(fields[0]), fold) then Some(fields[0])
    else FieldNamed(cmd, fields[1..], fold)
  }

  /** Names are compared in the order of the source; what no name matches is acknowledged. */
  function Named(cmd: string, arg: string, reading: Reading): Command {
    var field := FieldNamed(cmd, FIELDS, reading.fold);
    if SameWord(cmd, "BYE", reading.fold) then Bye
    else if field.Some? then SetField(field.value, arg)
    else if SameWord(cmd, "GETINFO", reading.fold) then GetInfo(Information(arg, reading))
    else if SameWord(cmd, "GETPIN", reading.fold) then GetPin
    else if SameWord(cmd, "CONFIRM", reading.fold) then Confirm
    else if SameWord(cmd, "RESET", reading.fold) then Reset
    else Acknowledge
  }

  /** A line is split at its first blank, unless that is its first character. */
  function CommandOf(line: string, reading: Reading): Command {
    var n := IndexOf(line, ' ');
    if 0 < n < |line| then Named(line[..n], reading.decode(line[n + 1..]), reading) else Named(line, "", reading)
  }

  /** Capital letters differ in more than case. */
  ghost predicate TellsLettersApart(fold: char -> char) {
    forall a, b :: 'A' <= a <= 'Z' && 'A' <= b <= 'Z' && fold(a) == fold(b) ==> a == b
  }

  lemma {:induction false} FirstBlank(cmd: string, arg: string)
    requires ' ' !in cmd
    ensures IndexOf(cmd + " " + arg, ' ') == |cmd|
  {
    if cmd != "" {
      assert (cmd + " " + arg)[1..] == cmd[1..] + " " + arg;
      FirstBlank(cmd[1..], arg);
    }
  }

  /** Two names that one word matches are the same name. */
  lemma SameName(cmd: string, a: string, b: string, fold: char -> char)
    requires TellsLettersApart(fold) && SameWord(cmd, a, fold) && SameWord(cmd, b, fold)
    requires (forall i :: 0 <= i < |a| ==> 'A' <= a[i] <= 'Z') && forall i :: 0 <= i < |b| ==> 'A' <= b[i] <= 'Z'
    ensures a == b
  {
    forall i | 0 <= i < |a| ensures a[i] == b[i] {
      assert fold(a[i]) == fold(cmd[i]) == fold(b[i]);
    }
  }

  /** A text is set by the line that names its field, in any case, and carries its decoded argument. */
  lemma FieldLineSets(cmd: string, arg: string, field: Field, reading: Reading)
    requires TellsLettersApart(reading.fold) && SameWord(cmd, FieldName(field), reading.fold) && ' ' !in cmd
    ensures CommandOf(cmd + " " + arg, reading) == SetField(field, reading.decode(arg))
  {
    FirstBlank(cmd, arg);
    var line := cmd + " " + arg;
    assert line[..|cmd|] == cmd && line[|cmd| + 1..] == arg;
    if SameWord(cmd, "BYE", reading.fold) {
      SameName(cmd, FieldName(field), "BYE", reading.fold);
    }
    FieldFound(cmd, field, FIELDS, reading.fold);
  }

  lemma NameLetters(field: Field)
    ensures forall i :: 0 <= i < |FieldName(field)| ==> 'A' <= FieldName(field)[i] <= 'Z'
  {
  }

  lemma NamesDiffer(f: Field, g: Field)
    ensures FieldName(f) == FieldName(g) ==> f == g
  {
    assert |FieldName(f)| == |FieldName(g)| ==> f == g || FieldName(f)[3] != FieldName(g)[3] || FieldName(f)[4] != FieldName(g)[4];
  }

  lemma {:induction false} FieldFound(cmd: string, field: Field, fields: seq<Field>, fold: char -> char)
    requires TellsLettersApart(fold) && SameWord(cmd, FieldName(field), fold) && field in fields
    ensures FieldNamed(cmd, fields, fold) == Some(field)
  {
    hide FieldName, SameWord;
    if SameWord(cmd, FieldName(fields[0]), fold) {
      NameLetters(field);
      NameLetters(fields[0]);
      SameName(cmd, FieldName(field), FieldName(fields[0]), fold);
      NamesDiffer(field, fields[0]);
    } else {
      FieldFound(cmd, field, fields[1..], fold);
    }
  }

  /** No text goes by a name that is no text's. */
  lemma {:induction false} NoFieldNamed(cmd: string, word: string, fields: seq<Field>, fold: char -> char)
    requires TellsLettersApart(fold) && SameWord(cmd, word, fold) && forall i :: 0 <= i < |word| ==> 'A' <= word[i] <= 'Z'
    requires forall field :: FieldName(field) != word
    ensures FieldNamed(cmd, fields, fold) == None
  {
    hide FieldName, SameWord;
    if fields != [] {
      NameLetters(fields[0]);
      if SameWord(cmd, FieldName(fields[0]), fold) {
        SameName(cmd, word, FieldName(fields[0]), fold);
      }
      NoFieldNamed(cmd, word, fields[1..], fold);
    }
  }

  lemma {:induction false} NoBlank(cmd: string)
    requires ' ' !in cmd
    ensures IndexOf(cmd, ' ') == |cmd|
  {
    if cmd != "" {
      NoBlank(cmd[1..]);
    }
  }

  /** The word that gives each order. */
  function OrderName(command: Command): string
    requires command.GetPin? || command.Confirm? || command.Bye? || command.Reset? || command.GetInfo?
  {
    match command
    case GetPin => "GETPIN"
    case Confirm => "CONFIRM"
    case Bye => "BYE"
    case Reset => "RESET"
    case GetInfo(_) => "GETINFO"
  }

  lemma OrderNames(a: Command, b: Command, field: Field)
    requires a.GetPin? || a.Confirm? || a.Bye? || a.Reset? || a.GetInfo?
    requires b.GetPin? || b.Confirm? || b.Bye? || b.Reset? || b.GetInfo?
    ensures OrderName(a) == OrderName(b) ==> a == b || (a.GetInfo? && b.GetInfo?)
    ensures FieldName(field) != OrderName(a)
    ensures forall i :: 0 <= i < |OrderName(a)| ==> 'A' <= OrderName(a)[i] <= 'Z'
  {
    assert |OrderName(a)| == |OrderName(b)| ==> a == b || (a.GetInfo? && b.GetInfo?) || OrderName(a)[0] != OrderName(b)[0];
  }

  /** A word matches two orders only if they are one. */
  lemma OneOrder(cmd: string, a: Command, b: Command, fold: char -> char)
    requires TellsLettersApart(fold)
    requires a.GetPin? || a.Confirm? || a.Bye? || a.Reset? || a.GetInfo?
    requires b.GetPin? || b.Confirm? || b.Bye? || b.Reset? || b.GetInfo?
    requires SameWord(cmd, OrderName(a), fold) && SameWord(cmd, OrderName(b), fold)
    ensures a == b || (a.GetInfo? && b.GetInfo?)
  {
    hide OrderName, FieldName, SameWord;
    OrderNames(a, b, Title);
    OrderNames(b, a, Title);
    SameName(cmd, OrderName(a), OrderName(b), fold);
  }

  /** An order is given by its word in any case, and GETINFO by its word and a topic. */
  lemma OrderLineGives(cmd: string, arg: string, command: Command, reading: Reading)
    requires command.GetPin? || command.Confirm? || command.Bye? || command.Reset? || command.GetInfo?
    requires TellsLettersApart(reading.fold) && SameWord(cmd, OrderName(command), reading.fold) && ' ' !in cmd && cmd != ""
    ensures !command.GetInfo? ==> CommandOf(cmd, reading) == command && CommandOf(cmd + " " + arg, reading) == command
    ensures command.GetInfo? ==>
              var topic := reading.decode(arg);
              CommandOf(cmd + " " + arg, reading) ==
              GetInfo(if topic == "pid" then Some(reading.pid) else if topic == "version" then Some("1.0.0")
                      else if topic == "flavor" then Some("bb") else if topic == "ttyinfo" then Some("") else None)
  {
    NoBlank(cmd);
    FirstBlank(cmd, arg);
    var line := cmd + " " + arg;
    assert line[..|cmd|] == cmd && line[|cmd| + 1..] == arg;
    OrderGiven(cmd, "", command, reading);
    OrderGiven(cmd, reading.decode(arg), command, reading);
    hide Named, OrderName, SameWord;
  }

  lemma OrderGiven(cmd: string, arg: string, command: Command, reading: Reading)
    requires command.GetPin? || command.Confirm? || command.Bye? || command.Reset? || command.GetInfo?
    requires TellsLettersApart(reading.fold) && SameWord(cmd, OrderName(command), reading.fold)
    ensures Named(cmd, arg, reading) == if command.GetInfo? then GetInfo(Information(arg, reading)) else command
  {
    hide SameWord, Information;
    forall field ensures FieldName(field) != OrderName(command) {
      OrderNames(command, command, field);
    }
    OrderNames(command, command, Title);
    NoFieldNamed(cmd, OrderName(command), FIELDS, reading.fold);
    var orders := [Bye, GetInfo(None), GetPin, Confirm, Reset];
    forall i | 0 <= i < 5 && SameWord(cmd, OrderName(orders[i]), reading.fold) ensures orders[i] == command || (orders[i].GetInfo? && command.GetInfo?) {
      OneOrder(cmd, orders[i], command, reading.fold);
    }
    assert orders[0] == Bye && orders[1] == GetInfo(None) && orders[2] == GetPin && orders[3] == Confirm && orders[4] == Reset;
  }

  /** Any other word is acknowledged, and does nothing. */
  lemma OtherLineAcknowledged(cmd: string, arg: string, reading: Reading)
    requires ' ' !in cmd && cmd != ""
    requires forall field :: !SameWord(cmd, FieldName(field), reading.fold)
    requires forall word :: word in ["BYE", "GETINFO", "GETPIN", "CONFIRM", "RESET"] ==> !SameWord(cmd, word, reading.fold)
    ensures CommandOf(cmd, reading) == Acknowledge && CommandOf(cmd + " " + arg, reading) == Acknowledge
  {
    NoBlank(cmd);
    FirstBlank(cmd, arg);
    assert (cmd + " " + arg)[..|cmd|] == cmd;
    NoMatch(cmd, FIELDS, reading.fold);
    hide SameWord, FieldName;
  }

  lemma {:induction false} NoMatch(cmd: string, fields: seq<Field>, fold: char -> char)
    requires forall field :: !SameWord(cmd, FieldName(field), fold)
    ensures FieldNamed(cmd, fields, fold) == None
  {
    hide SameWord, FieldName;
    if fields != [] {
      NoMatch(cmd, fields[1..], fold);
    }
  }

  /** A line of the stream, a unique id in case it starts a flow, and the daemon's answer in case it asks for one. */
  datatype Incoming = Incoming(line: string, uuid: Id, reply: Option<Msg>)

  function Stripped(line: string): string {
    if line != "" && line[|line| - 1] == '\r' then line[..|line| - 1] else line
  }

  lemma CarriageReturnDropped(line: string)
    ensures Stripped(line + "\r") == line
    ensures (line == "" || line[|line| - 1] != '\r') ==> Stripped(line) == line
  {
  }

  /** Empty lines are skipped; a carriage return at the end is dropped. */
  function TurnsOf(lines: seq<Incoming>, reading: Reading): seq<Turn> {
    if lines == [] then []
    else
      var last := lines[|lines| - 1];
      TurnsOf(lines[..|lines| - 1], reading) +
      if last.line == "" then [] else [Turn(CommandOf(Stripped(last.line), reading), last.uuid, last.reply)]
  }

  lemma TurnsNext(lines: seq<Incoming>, i: nat, reading: Reading)
    requires i < |lines|
    ensures Talk(TurnsOf(lines[..i + 1], reading)) ==
            if lines[i].line == "" then Talk(TurnsOf(lines[..i], reading))
            else Talk(TurnsOf(lines[..i], reading)).Handle(CommandOf(Stripped(lines[i].line), reading), lines[i].uuid, lines[i].reply)
  {
    hide PinentryData.Handle, CommandOf;
    assert lines[..i + 1][..i] == lines[..i];
    var before := TurnsOf(lines[..i], reading);
    if lines[i].line == "" {
      assert before + [] == before;
    } else {
      var turn := Turn(CommandOf(Stripped(lines[i].line), reading), lines[i].uuid, lines[i].reply);
      assert (before + [turn])[..|before|] == before;
    }
  }

  /** The process itself; `calls` and `out` record its exchanges with the daemon and with gpg-agent. */
  class PinentrySession {
    var texts: Texts
    var flowCookie: Id
    var awaitingTerminalResult: bool
    var running: bool
    var calls: seq<Call>
    var out: seq<Line>

    function Data(): PinentryData
      reads this
    {
      PinentryData(texts, flowCookie, awaitingTerminalResult, running, calls, out)
    }

    constructor ()
      ensures Data() == READY
    {
      texts := NO_TEXTS;
      flowCookie := "";
      awaitingTerminalResult, running := false, true;
      calls, out := [], [OkLine("BB Auth Pinentry")];
    }

    method Send(line: Line)
      modifies this`out
      ensures Data() == old(Data()).Print(line)
    {
      out := out + [line];
    }

    method EnsureFlowCookie(uuid: Id)
      modifies this`flowCookie
      ensures Data() == old(Data()).EnsureCookie(uuid)
    {
      if flowCookie == "" {
        flowCookie := uuid;
      }
    }

    method ClearSubmitState()
      modifies this`awaitingTerminalResult
      ensures Data() == old(Data()).(awaiting := false)
    {
      awaitingTerminalResult := false;
    }

    method ResetFlow()
      modifies this`awaitingTerminalResult, this`flowCookie
      ensures Data() == old(Data()).ResetFlow()
    {
      ClearSubmitState();
      flowCookie := "";
    }

    method ReportTerminalResult(result: ResultWord, error: string)
      modifies this
      ensures Data() == old(Data()).ReportResult(result, error)
    {
      if flowCookie == "" {
        return;
      }
      calls := calls + [Report(flowCookie, result, error)];
      if result == SaysRetry {
        ClearSubmitState();
      } else {
        ResetFlow();
      }
    }

    method FinalizeOnStreamClose()
      modifies this
      ensures Data() == old(Data()).Finalize()
    {
      if awaitingTerminalResult {
        if texts.error != "" {
          ReportTerminalResult(SaysError, texts.error);
        } else {
          ReportTerminalResult(SaysSuccess, "");
        }
        return;
      }
      if flowCookie != "" {
        if texts.error != "" {
          ReportTerminalResult(SaysError, texts.error);
        } else {
          ReportTerminalResult(SaysCancelled, "");
        }
      }
    }

    method RequestPasswordFromDaemon(uuid: Id, reply: Option<Msg>) returns (password: Option<string>)
      modifies this
      ensures var asked := old(Data()).EnsureCookie(uuid);
              && Data() == asked.Receive(asked.PinRequest(), reply)
              && password == if Grants(asked.PinRequest(), reply) then Some(reply.value.outcome.password) else None
    {
      EnsureFlowCookie(uuid);
      var request := Data().PinRequest();
      match reply {
        case Some(PinentryReply(_, Password(p))) =>
          calls := calls + [Ask(request, true)];
          awaitingTerminalResult := true;
          password := Some(p);
        case _ =>
          calls := calls + [Ask(request, false)];
          ResetFlow();
          password := None;
      }
    }

    method RequestConfirmFromDaemon(uuid: Id, reply: Option<Msg>) returns (confirmed: bool)
      modifies this
      ensures var asked := old(Data()).EnsureCookie(uuid);
              && Data() == asked.Receive(asked.ConfirmRequest(), reply)
              && confirmed == Grants(asked.ConfirmRequest(), reply)
    {
      EnsureFlowCookie(uuid);
      var request := Data().ConfirmRequest();
      confirmed := reply.Some? && reply.value.PinentryReply? && reply.value.outcome.Confirmed?;
      calls := calls + [Ask(request, confirmed)];
      if confirmed {
        awaitingTerminalResult := true;
      } else {
        ResetFlow();
      }
    }

    method HandleGetPin(uuid: Id, reply: Option<Msg>)
      modifies this
      ensures Data() == old(Data()).BeginPin().EnsureCookie(uuid).EndPin(reply)
      ensures out == old(out) + if Typed(reply).Some? then [DataLine(Typed(reply).value), OkLine("")] else [CancelledLine]
    {
      hide PinentryData.PinRequest, FAILED;
      if awaitingTerminalResult {
        ReportTerminalResult(SaysRetry, if texts.error == "" then FAILED else texts.error);
      }
      ghost var asked := Data().EnsureCookie(uuid);
      PinRequestKind(asked);
      EndPinPrints(asked, reply);
      var password := RequestPasswordFromDaemon(uuid, reply);
      if password.Some? && password.value != "" {
        Send(DataLine(password.value));
        Send(OkLine(""));
      } else {
        Send(CancelledLine);
      }
      texts := texts.(error := "");
    }

    method HandleConfirm(uuid: Id, reply: Option<Msg>)
      modifies this
      ensures Data() == old(Data()).EnsureCookie(uuid).EndConfirm(reply)
      ensures out == old(out) + [if SaysYes(reply) then OkLine("") else CancelledLine]
    {
      var confirmed := RequestConfirmFromDaemon(uuid, reply);
      if confirmed {
        Send(OkLine(""));
      } else {
        Send(CancelledLine);
      }
      texts := texts.(error := "");
    }

    /** Whether the conversation goes on. */
    method HandleCommand(command: Command, uuid: Id, reply: Option<Msg>) returns (goOn: bool)
      requires running
      modifies this
      ensures goOn == !command.Bye? && running
      ensures command.Bye? ==> Data() == old(Data()).Finalize().Print(OkLine("closing connection"))
      ensures !command.Bye? ==> Data() == old(Data()).Handle(command, uuid, reply)
    {
      goOn := true;
      match command {
        case Bye =>
          FinalizeOnStreamClose();
          Send(OkLine("closing connection"));
          goOn := false;
        case GetPin => HandleGetPin(uuid, reply);
        case Confirm => HandleConfirm(uuid, reply);
        case Reset =>
          texts := NO_TEXTS;
          Send(OkLine(""));
        case GetInfo(data) =>
          if data.Some? {
            Send(DataLine(data.value));
          }
          Send(OkLine(""));
        case SetField(field, arg) =>
          texts := Data().WithField(field, arg).texts;
          Send(OkLine(""));
        case Acknowledge => Send(OkLine(""));
      }
    }

    /** One line of the command stream. */
    method HandleLine(line: string, reading: Reading, uuid: Id, reply: Option<Msg>) returns (goOn: bool)
      requires running
      modifies this
      ensures var command := CommandOf(line, reading);
              && goOn == !command.Bye? && running
              && (command.Bye? ==> Data() == old(Data()).Finalize().Print(OkLine("closing connection")))
              && (!command.Bye? ==> Data() == old(Data()).Handle(command, uuid, reply))
    {
      var spaceIdx := IndexOf(line, ' ');
      var blank := 0 < spaceIdx < |line|;
      var cmd := if blank then line[..spaceIdx] else line;
      var arg := if blank then reading.decode(line[spaceIdx + 1..]) else "";
      goOn := HandleCommand(Named(cmd, arg, reading), uuid, reply);
    }

    /** The command loop, over the lines that arrive before the stream closes. */
    method Run(lines: seq<Incoming>, reading: Reading)
      requires Data() == READY
      modifies this
      ensures Data() == Talk(TurnsOf(lines, reading)).HangUp()
    {
      hide PinentryData.Handle, CommandOf;
      var i := 0;
      while i < |lines| && running
        invariant 0 <= i <= |lines|
        invariant Data() == Talk(TurnsOf(lines[..i], reading))
      {
        var line := lines[i].line;
        TurnsNext(lines, i, reading);
        if line != "" {
          if line[|line| - 1] == '\r' {
            line := line[..|line| - 1];
          }
          HandOn(lines[i], line, reading);
        }
        i := i + 1;
      }
      if running {
        assert lines[..i] == lines;
        FinalizeOnStreamClose();
        running := false;
      } else {
        StaysStopped(lines, i, reading);
      }
    }

    method HandOn(incoming: Incoming, line: string, reading: Reading)
      requires running && line == Stripped(incoming.line)
      modifies this
      ensures Data() == old(Data()).Handle(CommandOf(line, reading), incoming.uuid, incoming.reply)
    {
      var goOn := HandleLine(line, reading, incoming.uuid, incoming.reply);
      if !goOn {
        running := false;
        FinalizeOnStreamClose();
      }
    }
  }

  /** A process that has stopped takes no more turns. */
  lemma StoppedForGood(p: PinentryData, command: Command, uuid: Id, reply: Option<Msg>)
    requires !p.running
    ensures p.Handle(command, uuid, reply) == p
  {
  }

  lemma {:induction false} StaysStopped(lines: seq<Incoming>, i: nat, reading: Reading)
    requires i <= |lines| && !Talk(TurnsOf(lines[..i], reading)).running
    ensures Talk(TurnsOf(lines, reading)) == Talk(TurnsOf(lines[..i], reading))
    decreases |lines|
  {
    hide CommandOf, PinentryData.Handle, Talk, TurnsOf, Stripped;
    if i < |lines| {
      var n := |lines| - 1;
      assert lines[..n][..i] == lines[..i];
      StaysStopped(lines[..n], i, reading);
      assert lines[..n + 1] == lines;
      TurnsNext(lines, n, reading);
      StoppedForGood(Talk(TurnsOf(lines[..n], reading)), CommandOf(Stripped(lines[n].line), reading), lines[n].uuid, lines[n].reply);
    } else {
      assert lines[..i] == lines;
    }
  }
}
