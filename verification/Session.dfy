/** One authentication session: its fields, its setters and the three events that describe it to a UI. */
module Sessions {
  import opened Base

  datatype Source = Polkit | Keyring | Pinentry

  datatype Result = Success | Cancelled | Error

  datatype Requestor = Requestor(name: string, icon: string, fallbackLetter: string, fallbackKey: string, pid: Pid)

  datatype Context = Context(
    message: string, requestor: Requestor,
    actionId: string, user: string,
    keyringName: string,
    description: string, keyinfo: string, curRetry: int, maxRetries: int, confirmOnly: bool, repeat: bool)

  /** What a created event says about the request; each source exposes its own fields. */
  datatype Details =
    | PolkitDetails(actionId: string, user: string)
    | KeyringDetails(keyringName: string)
    | PinentryDetails(description: string, keyinfo: string, curRetry: int, maxRetries: int, confirmOnly: bool, repeat: bool)

  datatype Event =
    | Created(id: Id, source: Source, message: string, requestor: Requestor, details: Details)
    | Updated(id: Id, prompt: string, echo: bool, retry: Option<(int, int)>, error: string, info: string)
    | Closed(id: Id, result: Result, error: string)

  /** The fields of a session, as a value. */
  datatype SessionData = SessionData(
    id: Id, source: Source, context: Context, closed: bool,
    prompt: string, error: string, info: string, echo: bool, result: Option<Result>)
  {
    function SetPrompt(p: string, e: bool, clearError: bool): SessionData {
      this.(prompt := p, echo := e, closed := false, error := if clearError then "" else error, info := "")
    }

    function SetError(e: string): SessionData {
      this.(error := e)
    }

    function SetInfo(i: string): SessionData {
      this.(info := i)
    }

    function SetPinentryRetry(cur: int, max: int): SessionData {
      if source != Pinentry then this
      else this.(context := context.(curRetry := if cur < 0 then 0 else cur, maxRetries := if max > 0 then max else 3))
    }

    function Close(r: Result): SessionData {
      this.(result := Some(r), closed := true, error := if r == Success then "" else error)
    }

    function CreatedEvent(): Event {
      Created(id, source, context.message, context.requestor.(pid := if context.requestor.pid > 0 then context.requestor.pid else 0),
              match source
              case Polkit => PolkitDetails(context.actionId, context.user)
              case Keyring => KeyringDetails(context.keyringName)
              case Pinentry => PinentryDetails(context.description, context.keyinfo, context.curRetry, context.maxRetries, context.confirmOnly, context.repeat))
    }

    function UpdatedEvent(): Event {
      Updated(id, prompt, echo, if source == Pinentry then Some((context.curRetry, context.maxRetries)) else None, error, info)
    }

    function ClosedEvent(): Event {
      Closed(id, if result.Some? then result.value else Error, error)
    }
  }

  function NewSession(id: Id, source: Source, context: Context): SessionData {
    SessionData(id, source, context, false, "", "", "", false, None)
  }

  /** The session object: fields updated in place, specified by the value above. */
  class Session {
    const id: Id
    const source: Source
    var context: Context
    var closed: bool
    var prompt: string
    var error: string
    var info: string
    var echo: bool
    var result: Option<Result>

    function Data(): SessionData
      reads this
    {
      SessionData(id, source, context, closed, prompt, error, info, echo, result)
    }

    constructor (id: Id, source: Source, context: Context)
      ensures Data() == NewSession(id, source, context)
    {
      this.id := id;
      this.source := source;
      this.context := context;
      closed := false;
      prompt := "";
      error := "";
      info := "";
      echo := false;
      result := None;
    }

    method SetPrompt(p: string, e: bool, clearError: bool)
      modifies this
      ensures Data() == old(Data()).SetPrompt(p, e, clearError)
    {
      prompt := p;
      echo := e;
      closed := false;
      if clearError {
        error := "";
      }
      info := "";
    }

    method SetError(e: string)
      modifies this
      ensures Data() == old(Data()).SetError(e)
    {
      error := e;
    }

    method SetInfo(i: string)
      modifies this
      ensures Data() == old(Data()).SetInfo(i)
    {
      info := i;
    }

    method SetPinentryRetry(cur: int, max: int)
      modifies this
      ensures Data() == old(Data()).SetPinentryRetry(cur, max)
    {
      if source != Pinentry {
        return;
      }
      context := context.(curRetry := if cur < 0 then 0 else cur, maxRetries := if max > 0 then max else 3);
    }

    method Close(r: Result)
      modifies this
      ensures Data() == old(Data()).Close(r)
    {
      result := Some(r);
      closed := true;
      if r == Success {
        error := "";
      }
    }
  }
}
