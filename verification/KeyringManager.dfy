/** Keyring prompts: one pending request per session, answered once. */
module KeyringManagers {
  import opened Base
  import opened Sessions
  import opened Environments
  import opened AgentCore

  datatype KeyringMessage = KeyringMessage(cookie: Id, title: Option<string>, prompt: string, message: string, choice: string, flags: int)

  datatype KeyringRequest = KeyringRequest(
    cookie: Id, socket: Socket, pid: Pid, title: string, message: string, choice: string, flags: int)

  type KeyringTable = map<Id, KeyringRequest>

  function KeyringCookie(msg: KeyringMessage, env: Env): Id {
    if msg.cookie == "" then env.uuid else msg.cookie
  }

  function ParseKeyring(msg: KeyringMessage, s: Socket, pid: Pid, env: Env): KeyringRequest {
    KeyringRequest(KeyringCookie(msg, env), s, pid, if msg.title.Some? then msg.title.value else msg.prompt, msg.message, msg.choice, msg.flags)
  }

  function KeyringContext(r: KeyringRequest, env: Env): Context {
    Context(r.title, env.actor.(pid := r.pid), "", "", r.message, "", "", 0, 3, false, false)
  }

  /** The request is entered in the table before the session is created, and taken out again on a collision. */
  function KeyringHandleRequest(t: KeyringTable, store: map<Id, SessionData>, msg: KeyringMessage, s: Socket, pid: Pid, env: Env)
    : (KeyringTable, seq<Op>)
  {
    var r := ParseKeyring(msg, s, pid, env);
    if r.cookie in store then (t - {r.cookie}, [Say(s, Failure("Session ID collision"))])
    else (t[r.cookie := r], [DoOpen(r.cookie, Keyring, KeyringContext(r, env), r.message, true)])
  }

  function KeyringOwned(t: KeyringTable, s: Socket): set<Id> {
    set id | id in t && t[id].socket == s
  }

  function Cancellations(ids: seq<Id>): seq<Op> {
    if ids == [] then [] else [DoClose(ids[0], Cancelled)] + Cancellations(ids[1..])
  }

  function KeyringCleanup(t: KeyringTable, s: Socket, env: Env): (KeyringTable, seq<Op>) {
    (t - KeyringOwned(t, s), Cancellations(Only(env.idOrder(t.Keys), KeyringOwned(t, s))))
  }
}
