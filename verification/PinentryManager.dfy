/** Pinentry flows: a request is pending until the user answers, then awaits the outcome from its owner. */
module PinentryManagers {
  import opened Base
  import opened Sessions
  import opened Environments
  import opened AgentCore

  /** `attempts` is what the pattern "(m of n attempts)" captures in the description. */
  datatype PinentryMessage = PinentryMessage(
    cookie: Id, prompt: string, description: string, attempts: Option<(int, int)>, error: string, keyinfo: Id, repeat: bool, confirmOnly: bool)

  datatype PinentryRequest = PinentryRequest(
    cookie: Id, socket: Socket, pid: Pid,
    prompt: string, description: string, attempts: Option<(int, int)>, error: string, keyinfo: Id, repeat: bool, confirmOnly: bool)

  /** The word in a `pinentry_result`, lower-cased; both spellings of "cancelled" are one word here. */
  datatype ResultWord = SaysSuccess | SaysRetry | SaysCancelled | SaysError | SaysOther

  datatype Awaiting = Awaiting(request: PinentryRequest, timer: nat)

  /** `timers` are the armed single-shot timers and the flow each would close; a timer id is used once. */
  datatype PinTables = PinTables(
    pending: map<Id, PinentryRequest>,
    awaiting: map<Id, Awaiting>,
    retryInfo: map<Id, (int, int)>,
    owners: map<Id, Pid>,
    keyinfos: map<Id, Id>,
    reported: set<Id>,
    timers: map<nat, Id>,
    nextTimer: nat)
  {
    function CleanupAwaiting(id: Id): PinTables {
      if id !in awaiting then this
      else this.(awaiting := awaiting - {id}, timers := timers - {awaiting[id].timer})
    }

    /** `closeFlow`, apart from its agent calls. */
    function Forget(id: Id): PinTables {
      var t := CleanupAwaiting(id);
      PinTables(
        pending - {id}, t.awaiting,
        if id in keyinfos && keyinfos[id] != "" then retryInfo - {keyinfos[id]} else retryInfo,
        owners - {id}, keyinfos - {id}, reported - {id}, t.timers, nextTimer)
    }

    function ForgetAll(ids: seq<Id>): PinTables
      decreases |ids|
    {
      if ids == [] then this else Forget(ids[0]).ForgetAll(ids[1..])
    }

    /** Retry counts come from the description if it states them, else from the last request for the same key. */
    function ResolveRetry(r: PinentryRequest): (PinTables, int, int) {
      var known := if r.keyinfo != "" && r.keyinfo in retryInfo then retryInfo[r.keyinfo] else (0, 0);
      var counts := if r.attempts.Some? then r.attempts.value
                    else if r.keyinfo != "" then (known.0, if known.1 > 0 then known.1 else 3)
                    else (0, 3);
      var t := if r.keyinfo == "" then this
               else this.(retryInfo := retryInfo[r.keyinfo := if r.attempts.Some? then r.attempts.value else known]);
      (t, if counts.0 < 0 then 0 else counts.0, if counts.1 <= 0 then 3 else counts.1)
    }

    predicate OwnedByOther(id: Id, pid: Pid) {
      id in owners && owners[id] != pid
    }

    function Claimed(r: PinentryRequest): PinTables {
      this.(owners := owners[r.cookie := r.pid],
            keyinfos := if r.keyinfo != "" then keyinfos[r.cookie := r.keyinfo] else keyinfos)
    }

    function Pended(r: PinentryRequest): PinTables {
      var t1 := Claimed(r).ResolveRetry(r).0.CleanupAwaiting(r.cookie);
      t1.(pending := t1.pending[r.cookie := r], reported := t1.reported - {r.cookie})
    }

    function Answered(id: Id): PinTables
      requires id in pending
    {
      var t := this.(pending := pending - {id}).CleanupAwaiting(id);
      t.(awaiting := t.awaiting[id := Awaiting(pending[id], nextTimer)], timers := t.timers[nextTimer := id], nextTimer := nextTimer + 1)
    }
  }

  const NO_FLOWS := PinTables(map[], map[], map[], map[], map[], {}, map[], 0)

  function ParsePinentry(msg: PinentryMessage, s: Socket, pid: Pid, env: Env): PinentryRequest {
    PinentryRequest(if msg.cookie == "" then env.uuid else msg.cookie, s, pid,
                    if msg.prompt == "" then "Enter passphrase:" else msg.prompt,
                    msg.description, msg.attempts, msg.error, msg.keyinfo, msg.repeat, msg.confirmOnly)
  }

  function PinentryContext(r: PinentryRequest, cur: int, max: int, env: Env): Context {
    Context(r.prompt, env.actor.(pid := r.pid), "", "", "", r.description, r.keyinfo, cur, max, r.confirmOnly, r.repeat)
  }

  function OrFailed(error: string): string {
    if error == "" then "Authentication failed" else error
  }

  function PinentryHandleRequest(t: PinTables, store: map<Id, SessionData>, msg: PinentryMessage, s: Socket, pid: Pid, env: Env)
    : (PinTables, seq<Op>)
  {
    var r := ParsePinentry(msg, s, pid, env);
    if t.OwnedByOther(r.cookie, pid) then (t, [])
    else
      var (_, cur, max) := t.ResolveRetry(r);
      var retried := if r.cookie in t.awaiting then [DoError(r.cookie, OrFailed(r.error))] else [];
      var prompted := if r.cookie in store then [DoReprompt(r.cookie, cur, max, r.prompt)]
                      else [DoOpen(r.cookie, Pinentry, PinentryContext(r, cur, max, env), r.prompt, false)];
      var complained := if r.error != "" && r.cookie !in t.reported then [DoError(r.cookie, r.error)] else [];
      (t.Pended(r), retried + prompted + complained)
  }

  /** What the requester receives when the user answers. */
  function PinentryAnswer(r: PinentryRequest, id: Id, response: string): Msg {
    PinentryReply(id, if r.confirmOnly then Confirmed else Password(response))
  }

  predicate IsPinentry(store: map<Id, SessionData>, id: Id) {
    id in store && store[id].source == Pinentry
  }

  /** New tables, agent calls, and the reply to the sender. */
  function PinentryHandleResult(t: PinTables, store: map<Id, SessionData>, id: Id, pid: Pid, word: ResultWord, error: string)
    : (PinTables, seq<Op>, Msg)
  {
    if id == "" then (t, [], Failure("Missing id"))
    else if t.OwnedByOther(id, pid) then (t, [], Failure("Result sender does not own session"))
    else if !IsPinentry(store, id) then (t, [], Failure("Unknown pinentry session"))
    else match word
      case SaysSuccess => (t.Forget(id), [DoCloseFlow(id, Success, "")], Ok(None))
      case SaysRetry =>
        var t1 := t.CleanupAwaiting(id);
        (t1.(reported := t1.reported + {id}), [DoError(id, OrFailed(error))], Ok(None))
      case SaysCancelled => (t.Forget(id), [DoCloseFlow(id, Cancelled, "")], Ok(None))
      case SaysError => (t.Forget(id), [DoCloseFlow(id, Error, OrFailed(error))], Ok(None))
      case SaysOther => (t, [], Failure("Invalid result type"))
  }

  predicate HasRequest(t: PinTables, store: map<Id, SessionData>, id: Id) {
    id in t.pending || id in t.awaiting || IsPinentry(store, id)
  }

  function PinentryOwned(t: PinTables, s: Socket): set<Id> {
    set id | id in t.pending && t.pending[id].socket == s
  }

  const GONE := "Pinentry disconnected"
  const NO_RESULT := "Pinentry did not report terminal result"

  function Disconnections(ids: seq<Id>): seq<Op> {
    if ids == [] then [] else [DoCloseFlow(ids[0], Cancelled, GONE)] + Disconnections(ids[1..])
  }

  function PinentryCleanup(t: PinTables, s: Socket, env: Env): (PinTables, seq<Op>) {
    var ids := Only(env.idOrder(t.pending.Keys), PinentryOwned(t, s));
    (t.ForgetAll(ids), Disconnections(ids))
  }
}
