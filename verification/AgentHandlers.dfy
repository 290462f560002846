/** The whole daemon as objects: the agent, its three managers, and the handlers that tie them together. */
module AgentHandlers {
  import opened Base
  import opened Sessions
  import opened Environments
  import opened ProviderRegistries
  import opened AgentCore
  import opened KeyringManagers
  import opened PinentryManagers
  import opened PolkitListeners
  import opened Daemons
  import opened AgentSteps
  import opened Agents
  import opened KeyringHandlers
  import opened PinentryHandlers
  import opened PolkitHandlers

  lemma ApplyFirst(c: Core, first: Op, rest: seq<Op>, env: Env)
    ensures Apply(c, [first] + rest, env) == Apply(ApplyOne(c, first, env), rest, env)
  {
    ApplyConcat(c, [first], rest, env);
    ApplySingle(c, first, env);
  }

  function KeyringAnswered(d: Daemon, s: Socket, id: Id, response: string): seq<Op>
    requires id in d.keyring
  {
    [DoClose(id, Success)] + [Answer(d.keyring[id].socket, KeyringReply(id, Some(response))), Say(s, Ok(None))]
  }

  function PinentryAnswered(d: Daemon, s: Socket, id: Id, response: string): seq<Op>
    requires id in d.pinentry.pending
  {
    [Answer(d.pinentry.pending[id].socket, PinentryAnswer(d.pinentry.pending[id], id, response)), Say(s, Ok(None))]
  }

  function KeyringCancelled(c: Core, k: KeyringTable, s: Socket, id: Id, env: Env): Core
    requires id in k
  {
    Apply(c.Close(id, Cancelled, env), [Answer(k[id].socket, KeyringReply(id, None)), Say(s, Ok(None))], env)
  }

  function Requester(t: PinTables, id: Id): Option<Socket> {
    if id in t.pending then Some(t.pending[id].socket) else None
  }

  function CancelTold(origSocket: Option<Socket>, id: Id, s: Socket): seq<Op> {
    if origSocket.Some? then [Answer(origSocket.value, PinentryReply(id, Declined)), Say(s, Ok(None))] else [Say(s, Ok(None))]
  }

  function PinentryCancelled(c: Core, t: PinTables, s: Socket, id: Id, env: Env): Core {
    Apply(c.CloseFlow(id, Cancelled, "", env), CancelTold(Requester(t, id), id, s), env)
  }

  function CancelRefusal(d: Daemon, id: Id): Option<string> {
    if id !in d.core.store then Some("Unknown session")
    else if d.core.store[id].source != Polkit then Some("Session is not cancellable from this path")
    else None
  }

  lemma CancelIs(d: Daemon, s: Socket, id: Id, env: Env)
    ensures var d' := After(d, Cancel(d, s, id), env);
            if !d.core.registry.Authorizes(s) then d' == d.(core := Apply(d.core, [Say(s, Failure(NOT_ACTIVE))], env))
            else if id in d.keyring then d' == d.(keyring := d.keyring - {id}, core := KeyringCancelled(d.core, d.keyring, s, id, env))
            else if HasRequest(d.pinentry, d.core.store, id) then
              d' == d.(pinentry := d.pinentry.Forget(id), core := PinentryCancelled(d.core, d.pinentry, s, id, env))
            else if CancelRefusal(d, id).Some? then d' == d.(core := Apply(d.core, [Say(s, Failure(CancelRefusal(d, id).value))], env))
            else d' == d.(polkit := d.polkit.CancelPending(id).0, core := Apply(d.core, d.polkit.CancelPending(id).1 + [Say(s, Ok(None))], env))
  {
    if id in d.keyring {
      var rest := [Answer(d.keyring[id].socket, KeyringReply(id, None)), Say(s, Ok(None))];
      ApplyFirst(d.core, DoClose(id, Cancelled), rest, env);
      assert [DoClose(id, Cancelled)] + rest == [DoClose(id, Cancelled), rest[0], rest[1]];
    } else {
      var told := CancelTold(Requester(d.pinentry, id), id, s);
      ApplyFirst(d.core, DoCloseFlow(id, Cancelled, ""), told, env);
      if d.core.registry.Authorizes(s) && HasRequest(d.pinentry, d.core.store, id) {
        CancelOps(d, s, id);
      }
    }
  }

  lemma CancelOps(d: Daemon, s: Socket, id: Id)
    requires d.core.registry.Authorizes(s) && id !in d.keyring && HasRequest(d.pinentry, d.core.store, id)
    ensures Cancel(d, s, id).ops == [DoCloseFlow(id, Cancelled, "")] + CancelTold(Requester(d.pinentry, id), id, s)
  {
  }

  /** Why an answer to a session without a pending request is refused, if it is. */
  function Refusal(d: Daemon, id: Id): Option<string> {
    if HasRequest(d.pinentry, d.core.store, id) then Some("Session is not accepting input")
    else if id !in d.core.store then Some("Unknown session")
    else if d.core.store[id].source != Polkit then Some("Session is not awaiting direct response")
    else None
  }

  lemma RespondIs(d: Daemon, s: Socket, id: Id, response: string)
    ensures var e := Respond(d, s, id, response);
            if !d.core.registry.Authorizes(s) then e == Effect(d.keyring, d.pinentry, d.polkit, [Say(s, Failure(NOT_ACTIVE))])
            else if id in d.keyring then
              e == Effect(d.keyring - {id}, d.pinentry, d.polkit, KeyringAnswered(d, s, id, response))
            else if id in d.pinentry.pending then
              e == Effect(d.keyring, d.pinentry.Answered(id), d.polkit, PinentryAnswered(d, s, id, response))
            else if Refusal(d, id).Some? then e == Effect(d.keyring, d.pinentry, d.polkit, [Say(s, Failure(Refusal(d, id).value))])
            else e == Effect(d.keyring, d.pinentry, d.polkit.Submit(id, response), [Say(s, Ok(None))])
  {
  }

  /** The daemon after an effect. */
  function After(d: Daemon, e: Effect, env: Env): Daemon {
    Daemon(Apply(d.core, e.ops, env), e.keyring, e.pinentry, e.polkit)
  }

  class AuthAgent {
    const agent: Agent
    const keyring: KeyringManager
    const pinentry: PinentryManager
    const listener: PolkitListener

    ghost function Owned(): set<object>
      reads this, agent, agent.store, listener
    {
      {keyring, pinentry, listener} + listener.Objects() + agent.Owned()
    }

    /** Objects were only given up. */
    twostate predicate Shrank()
      reads this, agent, agent.store, listener
    {
      agent.store.Objects() <= old(agent.store.Objects()) && listener.Objects() <= old(listener.Objects())
    }

    /** No object was adopted that existed before. */
    twostate predicate Grew()
      reads this, agent, agent.store, listener
    {
      && (forall o :: o in agent.store.Objects() ==> o in old(agent.store.Objects()) || fresh(o))
      && (forall o :: o in listener.Objects() ==> o in old(listener.Objects()) || fresh(o))
    }

    ghost predicate Valid()
      reads this, agent, agent.store, keyring, listener, listener.Objects()
    {
      agent.Valid() && listener.Valid() && forall id :: id in keyring.pendingRequests ==> keyring.pendingRequests[id].cookie == id
    }

    ghost function Data(): Daemon
      reads this, agent, agent.store, agent.store.Objects(), agent.registry, agent.queue, agent.launcher
      reads keyring, pinentry, listener, listener.Objects()
    {
      Daemon(agent.Data(), keyring.pendingRequests, pinentry.Data(), listener.Data())
    }

    constructor ()
      ensures Valid() && Data() == INITIAL
      ensures fresh(keyring) && fresh(pinentry) && fresh(listener) && fresh(listener.Objects()) && fresh(agent.Owned())
    {
      agent := new Agent();
      keyring := new KeyringManager();
      pinentry := new PinentryManager();
      listener := new PolkitListener();
    }

    // -- answers

    method Tell(s: Socket, m: Msg, env: Env)
      requires Valid()
      modifies agent`sent
      ensures Valid() && agent.Data() == Apply(old(agent.Data()), [Say(s, m)], env) && listener.Data() == old(listener.Data())
      ensures Shrank()
    {
      ApplySingle(agent.Data(), Say(s, m), env);
      agent.Send(s, m, env);
      listener.Untouched();
    }

    /** The requester gets its answer, and the UI its acknowledgement. */
    method Acknowledge(origSocket: Socket, reply: Msg, s: Socket, env: Env)
      requires agent.Valid()
      modifies agent`sent, agent`replies
      ensures agent.Valid() && agent.Data() == Apply(old(agent.Data()), [Answer(origSocket, reply), Say(s, Ok(None))], env)
      ensures Shrank()
    {
      ApplyFirst(agent.Data(), Answer(origSocket, reply), [Say(s, Ok(None))], env);
      assert [Answer(origSocket, reply)] + [Say(s, Ok(None))] == [Answer(origSocket, reply), Say(s, Ok(None))];
      agent.AnswerTo(origSocket, reply, env);
      ApplySingle(agent.Data(), Say(s, Ok(None)), env);
      agent.Send(s, Ok(None), env);
    }

    method RespondToKeyring(s: Socket, id: Id, response: string, env: Env)
      requires Valid() && env.Valid() && id in keyring.pendingRequests
      modifies keyring, agent.Owned()
      ensures agent.Valid() && keyring.pendingRequests == old(keyring.pendingRequests) - {id}
      ensures agent.Data() == Apply(old(agent.Data()),
                                    [DoClose(id, Success)] +
                                    [Answer(old(keyring.pendingRequests)[id].socket, KeyringReply(id, Some(response))), Say(s, Ok(None))], env)
      ensures Shrank()
    {
      hide Agent.Data, Env.Valid, Apply, Core.Announce, Core.Route, Registry.Recompute;
      var origSocket := keyring.pendingRequests[id].socket;
      ApplyFirst(agent.Data(), DoClose(id, Success), [Answer(origSocket, KeyringReply(id, Some(response))), Say(s, Ok(None))], env);
      var reply := keyring.HandleResponse(agent, id, response, env);
      Acknowledge(origSocket, reply, s, env);
    }

    method RespondToPinentry(s: Socket, id: Id, response: string, env: Env)
      requires Valid() && env.Valid() && id in pinentry.pending
      modifies pinentry, agent`sent, agent`replies
      ensures agent.Valid() && pinentry.Data() == old(pinentry.Data()).Answered(id)
      ensures var r := old(pinentry.Data()).pending[id];
              agent.Data() == Apply(old(agent.Data()), [Answer(r.socket, PinentryAnswer(r, id, response)), Say(s, Ok(None))], env)
      ensures Shrank()
    {
      var origSocket := pinentry.pending[id].socket;
      ghost var c := agent.Data();
      var reply := pinentry.HandleResponse(id, response);
      assert agent.Data() == c;
      Acknowledge(origSocket, reply, s, env);
    }

    function WhyRefused(id: Id): (why: Option<string>)
      reads this, agent, agent.store, agent.store.Objects(), agent.registry, agent.queue, agent.launcher
      reads keyring, pinentry, listener, listener.Objects()
      ensures why == Refusal(Data(), id)
    {
      var source := agent.store.GetSource(id);
      if id in pinentry.pending || id in pinentry.awaiting || source == Some(Pinentry) then Some("Session is not accepting input")
      else if source.None? then Some("Unknown session")
      else if source != Some(Polkit) then Some("Session is not awaiting direct response")
      else None
    }

    /** An answer to a session that no manager has a pending request for. */
    method RespondToSession(s: Socket, id: Id, response: string, env: Env)
      requires Valid()
      modifies listener`submitted, agent`sent
      ensures Valid()
      ensures var d := old(Data());
              if Refusal(d, id).Some? then
                listener.Data() == d.polkit && agent.Data() == Apply(d.core, [Say(s, Failure(Refusal(d, id).value))], env)
              else listener.Data() == d.polkit.Submit(id, response) && agent.Data() == Apply(d.core, [Say(s, Ok(None))], env)
      ensures Shrank()
    {
      var why := WhyRefused(id);
      if why.Some? {
        Tell(s, Failure(why.value), env);
      } else {
        Submit(s, id, response, env);
      }
    }

    method Submit(s: Socket, id: Id, response: string, env: Env)
      requires Valid()
      modifies listener`submitted, agent`sent
      ensures Valid() && listener.Data() == old(listener.Data()).Submit(id, response)
      ensures agent.Data() == Apply(old(agent.Data()), [Say(s, Ok(None))], env)
      ensures Shrank()
    {
      hide PolkitListener.Data, Apply, Env.Valid;
      ghost var c := agent.Data();
      listener.SubmitPassword(id, response);
      assert agent.Data() == c;
      Tell(s, Ok(None), env);
    }

    method RespondByManager(s: Socket, id: Id, response: string, env: Env)
      requires Valid() && env.Valid() && (id in keyring.pendingRequests || id in pinentry.pending)
      modifies keyring, pinentry, agent.Owned()
      ensures Valid() && listener.Data() == old(listener.Data())
      ensures var d := old(Data());
              if id in d.keyring then
                && keyring.pendingRequests == d.keyring - {id} && pinentry.Data() == d.pinentry
                && agent.Data() == Apply(d.core, KeyringAnswered(d, s, id, response), env)
              else
                && keyring.pendingRequests == d.keyring && pinentry.Data() == d.pinentry.Answered(id)
                && agent.Data() == Apply(d.core, PinentryAnswered(d, s, id, response), env)
      ensures Shrank()
    {
      hide Agent.Data, Apply, PolkitListener.Data, PolkitListener.Valid, PinTables.Answered, PinentryManager.Data, Env.Valid;
      if id in keyring.pendingRequests {
        RespondToKeyring(s, id, response, env);
        listener.Untouched();
      } else {
        RespondToPinentry(s, id, response, env);
        listener.Untouched();
      }
    }

    method HandleRespond(s: Socket, id: Id, response: string, env: Env)
      requires Valid() && env.Valid()
      modifies Owned()
      ensures Valid() && Data() == After(old(Data()), Respond(old(Data()), s, id, response), env)
      ensures Shrank()
    {
      hide Agent.Data, Apply, Respond, PolkitListener.Data, PolkitListener.Valid, Env.Valid;
      agent.Parts();
      RespondIs(Data(), s, id, response);
      if !agent.registry.IsAuthorized(s) {
        Tell(s, Failure(NOT_ACTIVE), env);
      } else if id in keyring.pendingRequests || id in pinentry.pending {
        RespondByManager(s, id, response, env);
      } else {
        RespondToSession(s, id, response, env);
      }
    }

    // -- cancellations

    method CancelKeyring(s: Socket, id: Id, env: Env)
      requires agent.Valid() && env.Valid() && id in keyring.pendingRequests
      modifies keyring, agent.Owned()
      ensures agent.Valid() && keyring.pendingRequests == old(keyring.pendingRequests) - {id}
      ensures agent.Data() == KeyringCancelled(old(agent.Data()), old(keyring.pendingRequests), s, id, env)
      ensures Shrank()
    {
      hide Agent.Data, Apply, Env.Valid;
      var origSocket := keyring.pendingRequests[id].socket;
      var reply := keyring.HandleCancel(agent, id, env);
      Acknowledge(origSocket, reply, s, env);
    }

    /** Only a pending requester is told; the UI always is. */
    method AcknowledgeCancel(origSocket: Option<Socket>, reply: Msg, id: Id, s: Socket, env: Env)
      requires agent.Valid() && reply == PinentryReply(id, Declined)
      modifies agent`sent, agent`replies
      ensures agent.Valid() && agent.Data() == Apply(old(agent.Data()), CancelTold(origSocket, id, s), env)
      ensures Shrank()
    {
      if origSocket.Some? {
        Acknowledge(origSocket.value, reply, s, env);
      } else {
        ApplySingle(agent.Data(), Say(s, Ok(None)), env);
        agent.Send(s, Ok(None), env);
      }
    }

    method CancelPinentry(s: Socket, id: Id, env: Env)
      requires agent.Valid() && env.Valid() && pinentry.HasRequest(agent, id)
      modifies pinentry, agent.Owned()
      ensures agent.Valid() && pinentry.Data() == old(pinentry.Data()).Forget(id)
      ensures agent.Data() == PinentryCancelled(old(agent.Data()), old(pinentry.Data()), s, id, env)
      ensures Shrank()
    {
      hide Agent.Data, Apply, CancelTold, Core.CloseFlow, AuthAgent.Valid, Env.Valid, PinTables.Forget, ApplyOne;
      var origSocket := if id in pinentry.pending then Some(pinentry.pending[id].socket) else None;
      assert origSocket == Requester(pinentry.Data(), id);
      hide PinentryManager.Data, Requester;
      var reply := pinentry.HandleCancel(agent, id, env);
      AcknowledgeCancel(origSocket, reply, id, s, env);
    }

    method CancelKeyringOnly(s: Socket, id: Id, env: Env)
      requires Valid() && env.Valid() && id in keyring.pendingRequests
      modifies keyring, agent.Owned()
      ensures Valid()
      ensures var d := old(Data());
              Data() == d.(keyring := d.keyring - {id}, core := KeyringCancelled(d.core, d.keyring, s, id, env))
      ensures Shrank()
    {
      hide Agent.Data, Apply, ApplyOne, PolkitListener.Data, Env.Valid;
      CancelKeyring(s, id, env);
      listener.Untouched();
    }

    method CancelPinentryOnly(s: Socket, id: Id, env: Env)
      requires Valid() && env.Valid() && pinentry.HasRequest(agent, id)
      modifies pinentry, agent.Owned()
      ensures Valid()
      ensures var d := old(Data());
              Data() == d.(pinentry := d.pinentry.Forget(id), core := PinentryCancelled(d.core, d.pinentry, s, id, env))
      ensures Shrank()
    {
      hide Agent.Data, PinentryCancelled, PolkitListener.Data, PolkitListener.Valid, PinentryManager.Data, Env.Valid;
      CancelPinentry(s, id, env);
      listener.Untouched();
    }

    method CancelSession(s: Socket, id: Id, env: Env)
      requires Valid() && env.Valid()
      modifies listener, listener.Objects(), agent.Owned()
      ensures Valid() && listener.Data() == old(listener.Data()).CancelPending(id).0
      ensures agent.Data() == Apply(old(agent.Data()), old(listener.Data()).CancelPending(id).1 + [Say(s, Ok(None))], env)
      ensures Shrank()
    {
      hide Agent.Data, Apply, PolkitListener.Data, PolkitTables.CancelPending, Env.Valid;
      ghost var ops := listener.Data().CancelPending(id).1;
      ApplyConcat(agent.Data(), ops, [Say(s, Ok(None))], env);
      listener.CancelPending(agent, id, env);
      Tell(s, Ok(None), env);
    }

    function WhyNotCancelled(id: Id): (why: Option<string>)
      reads this, agent, agent.store, agent.store.Objects(), agent.registry, agent.queue, agent.launcher
      reads keyring, pinentry, listener, listener.Objects()
      ensures why == CancelRefusal(Data(), id)
    {
      var source := agent.store.GetSource(id);
      if source.None? then Some("Unknown session")
      else if source != Some(Polkit) then Some("Session is not cancellable from this path")
      else None
    }

    method CancelUnmanaged(s: Socket, id: Id, env: Env)
      requires Valid() && env.Valid()
      modifies listener, listener.Objects(), agent.Owned()
      ensures Valid()
      ensures var d := old(Data());
              if CancelRefusal(d, id).Some? then
                listener.Data() == d.polkit && agent.Data() == Apply(d.core, [Say(s, Failure(CancelRefusal(d, id).value))], env)
              else
                && listener.Data() == d.polkit.CancelPending(id).0
                && agent.Data() == Apply(d.core, d.polkit.CancelPending(id).1 + [Say(s, Ok(None))], env)
      ensures Shrank()
    {
      var why := WhyNotCancelled(id);
      if why.Some? {
        Tell(s, Failure(why.value), env);
      } else {
        CancelSession(s, id, env);
      }
    }

    method CancelUnmanagedOnly(s: Socket, id: Id, env: Env)
      requires Valid() && env.Valid()
      modifies listener, listener.Objects(), agent.Owned()
      ensures Valid()
      ensures var d := old(Data());
              Data() == if CancelRefusal(d, id).Some? then d.(core := Apply(d.core, [Say(s, Failure(CancelRefusal(d, id).value))], env))
                        else d.(polkit := d.polkit.CancelPending(id).0,
                                core := Apply(d.core, d.polkit.CancelPending(id).1 + [Say(s, Ok(None))], env))
      ensures Shrank()
    {
      hide Apply, Env.Valid;
      CancelUnmanaged(s, id, env);
    }

    method HandleCancel(s: Socket, id: Id, env: Env)
      requires Valid() && env.Valid()
      modifies Owned()
      ensures Valid() && Data() == After(old(Data()), Cancel(old(Data()), s, id), env)
      ensures Shrank()
    {
      hide Agent.Data, Apply, Cancel, PolkitListener.Data, PolkitListener.Valid, Env.Valid;
      agent.Parts();
      CancelIs(Data(), s, id, env);
      if !agent.registry.IsAuthorized(s) {
        Tell(s, Failure(NOT_ACTIVE), env);
      } else {
        CancelAllowed(s, id, env);
      }
    }

    method CancelAllowed(s: Socket, id: Id, env: Env)
      requires Valid() && env.Valid() && agent.registry.Data().Authorizes(s)
      modifies Owned()
      ensures Valid() && Data() == After(old(Data()), Cancel(old(Data()), s, id), env)
      ensures Shrank()
    {
      CancelIs(Data(), s, id, env);
      if id in keyring.pendingRequests {
        CancelKeyringOnly(s, id, env);
      } else {
        CancelRest(s, id, env);
      }
    }

    method CancelRest(s: Socket, id: Id, env: Env)
      requires Valid() && env.Valid() && agent.registry.Data().Authorizes(s) && id !in keyring.pendingRequests
      modifies pinentry, listener, listener.Objects(), agent.Owned()
      ensures Valid() && Data() == After(old(Data()), Cancel(old(Data()), s, id), env)
      ensures Shrank()
    {
      ghost var goal := After(Data(), Cancel(Data(), s, id), env);
      CancelIs(Data(), s, id, env);
      if pinentry.HasRequest(agent, id) {
        CancelPinentryOnly(s, id, env);
        assert Data() == goal;
      } else {
        CancelUnmanagedOnly(s, id, env);
        assert Data() == goal;
      }
    }

    // -- disconnections

    method CleanUp(s: Socket, env: Env)
      requires agent.Valid() && env.Valid() && forall id :: id in keyring.pendingRequests ==> keyring.pendingRequests[id].cookie == id
      modifies keyring, pinentry, agent.Owned()
      ensures agent.Valid()
      ensures keyring.pendingRequests == KeyringCleanup(old(keyring.pendingRequests), s, env).0
      ensures pinentry.Data() == PinentryCleanup(old(pinentry.Data()), s, env).0
      ensures agent.Data() == Cleaned(old(agent.Data()), old(keyring.pendingRequests), old(pinentry.Data()), s, env)
      ensures Shrank()
    {
      hide Agent.Data, Apply, PinentryManager.Data, PinentryCleanup, Env.Valid;
      ghost var c, k, p := agent.Data(), keyring.pendingRequests, pinentry.Data();
      keyring.CleanupForSocket(agent, s, env);
      assert pinentry.Data() == p && agent.Data() == Apply(c, KeyringCleanup(k, s, env).1, env);
      pinentry.CleanupForSocket(agent, s, env);
    }

    method Leave(s: Socket, env: Env)
      requires agent.Valid() && env.Valid() && forall id :: id in keyring.pendingRequests ==> keyring.pendingRequests[id].cookie == id
      modifies keyring, pinentry, agent.Owned()
      ensures agent.Valid()
      ensures keyring.pendingRequests == KeyringCleanup(old(keyring.pendingRequests), s, env).0
      ensures pinentry.Data() == PinentryCleanup(old(pinentry.Data()), s, env).0
      ensures agent.Data() == Cleaned(Forsaken(old(agent.Data()), s, env), old(keyring.pendingRequests), old(pinentry.Data()), s, env).EnsureIfUnattended(env)
      ensures Shrank()
    {
      hide Agent.Data, Cleaned, Forsaken, PinentryManager.Data, Env.Valid;
      agent.Forsake(s, env);
      CleanUp(s, env);
      agent.EnsureIfUnattended(env);
    }

    method OnClientDisconnected(s: Socket, env: Env)
      requires Valid() && env.Valid()
      modifies keyring, pinentry, agent.Owned()
      ensures Valid() && Data() == After(old(Data()), Disconnect(old(Data()), s, env), env)
      ensures Shrank()
    {
      hide Agent.Data, ApplyOne, Apply, Env.Valid;
      DisconnectIs(Data(), s, env);
      Leave(s, env);
      listener.Untouched();
    }

    // -- requests, results and timers

    method HandleKeyringRequest(s: Socket, pid: Pid, msg: KeyringMessage, env: Env)
      requires Valid() && env.Valid()
      modifies keyring, agent.Owned()
      ensures Valid() && Data() == Handle(old(Data()), KeyringInput(s, pid, msg), env)
      ensures Grew()
    {
      hide Agent.Data, Apply, Handle, KeyringHandleRequest, PolkitListener.Data, PolkitListener.Valid, Env.Valid;
      KeyringIs(Data(), s, pid, msg, env);
      KeyringKeyed(keyring.pendingRequests, agent.Data().store, msg, s, pid, env);
      keyring.HandleRequest(agent, msg, s, pid, env);
      listener.Untouched();
    }

    method HandlePinentryRequest(s: Socket, pid: Pid, msg: PinentryMessage, env: Env)
      requires Valid() && env.Valid()
      modifies pinentry, agent.Owned()
      ensures Valid() && Data() == Handle(old(Data()), PinentryInput(s, pid, msg), env)
      ensures Grew()
    {
      hide Agent.Data, Apply, Handle, PinentryHandleRequest, PolkitListener.Data, PolkitListener.Valid, Env.Valid;
      PinentryIs(Data(), s, pid, msg, env);
      pinentry.HandleRequest(agent, msg, s, pid, env);
      listener.Untouched();
    }

    method HandlePinentryResult(s: Socket, pid: Pid, id: Id, word: ResultWord, error: string, env: Env)
      requires Valid() && env.Valid()
      modifies pinentry, agent.Owned()
      ensures Valid() && Data() == Handle(old(Data()), ResultInput(s, pid, id, word, error), env)
      ensures Grew()
    {
      hide Agent.Data, Apply, Handle, PinentryHandleResult, PolkitListener.Data, PolkitListener.Valid, PinentryManager.Data, Env.Valid, Core.Inbox;
      ResultIs(Data(), s, pid, id, word, error, env);
      var reply := pinentry.HandleResult(agent, pid, id, word, error, env);
      agent.Send(s, reply, env);
      listener.Untouched();
    }

    method OnOutcomeTimer(timer: nat, env: Env)
      requires Valid() && env.Valid()
      modifies pinentry, agent.Owned()
      ensures Valid() && Data() == Handle(old(Data()), OutcomeTimer(timer), env)
      ensures Grew()
    {
      hide Agent.Data, Apply, Handle, PinTables.Forget, PolkitListener.Data, PolkitListener.Valid, Env.Valid;
      TimerIs(Data(), timer, env);
      if timer in pinentry.timers {
        pinentry.OnTimeout(agent, timer, env);
        listener.Untouched();
      }
    }

    // -- polkit

    method OnPolkitInitiate(cookie: Id, hasIdentity: bool, result: AsyncResult, message: string, actionId: string, user: string, env: Env)
      requires Valid() && env.Valid()
      modifies listener, listener.Objects(), agent.Owned()
      ensures Valid() && Data() == Handle(old(Data()), PolkitInitiate(cookie, hasIdentity, result, message, actionId, user), env)
      ensures Grew()
    {
      hide Agent.Data, Apply, Handle, PolkitTables.Initiate, PolkitListener.Data, PolkitListener.Valid, PolkitContext, PinentryManager.Data, Env.Valid;
      PolkitIs(Data(), PolkitInitiate(cookie, hasIdentity, result, message, actionId, user), env);
      listener.InitiateAuthentication(agent, cookie, hasIdentity, result, PolkitContext(message, actionId, user, env), env);
    }

    method OnPolkitRequest(attempt: Attempting, prompt: string, echo: bool, env: Env)
      requires Valid() && env.Valid()
      modifies listener.Objects(), agent.Owned()
      ensures Valid() && Data() == Handle(old(Data()), PolkitRequest(attempt, prompt, echo), env)
      ensures Grew()
    {
      hide Agent.Data, Apply, Handle, PolkitTables.OnRequest, PolkitListener.Data, PolkitListener.Valid, PinentryManager.Data, Env.Valid;
      PolkitIs(Data(), PolkitRequest(attempt, prompt, echo), env);
      listener.OnSessionRequest(agent, attempt, prompt, echo, env);
    }

    method OnPolkitCompleted(attempt: Attempting, gained: bool, env: Env)
      requires Valid() && env.Valid()
      modifies listener, listener.Objects(), agent.Owned()
      ensures Valid() && Data() == Handle(old(Data()), PolkitCompleted(attempt, gained), env)
      ensures Grew()
    {
      hide Agent.Data, Apply, Handle, PolkitTables.OnCompleted, PolkitListener.Data, PolkitListener.Valid, PinentryManager.Data, Env.Valid;
      PolkitIs(Data(), PolkitCompleted(attempt, gained), env);
      listener.OnSessionCompleted(agent, attempt, gained, env);
    }

    method OnPolkitError(attempt: Attempting, text: string, env: Env)
      requires Valid() && env.Valid()
      modifies listener.Objects(), agent.Owned()
      ensures Valid() && Data() == Handle(old(Data()), PolkitError(attempt, text), env)
      ensures Grew()
    {
      hide Agent.Data, Apply, Handle, PolkitTables.OnError, PolkitListener.Data, PolkitListener.Valid, PinentryManager.Data, Env.Valid;
      PolkitIs(Data(), PolkitError(attempt, text), env);
      listener.OnSessionError(agent, attempt, text, env);
    }

    method OnPolkitInfo(attempt: Attempting, text: string, env: Env)
      requires Valid() && env.Valid()
      modifies agent.Owned()
      ensures Valid() && Data() == Handle(old(Data()), PolkitInfo(attempt, text), env)
      ensures Grew()
    {
      hide Agent.Data, Apply, Handle, PolkitTables.OnInfo, PolkitListener.Data, PolkitListener.Valid, PinentryManager.Data, Env.Valid;
      PolkitIs(Data(), PolkitInfo(attempt, text), env);
      listener.OnSessionInfo(agent, attempt, text, env);
    }

    method OnPolkitCancelAll(env: Env)
      requires Valid() && env.Valid()
      modifies listener, listener.Objects(), agent.Owned()
      ensures Valid() && Data() == Handle(old(Data()), PolkitCancelAll, env)
      ensures Grew()
    {
      hide Agent.Data, Apply, Handle, PolkitTables.CancelEach, PolkitListener.Data, PolkitListener.Valid, PinentryManager.Data, Env.Valid;
      PolkitIs(Data(), PolkitCancelAll, env);
      listener.CancelAuthentication(agent, env);
    }

    // -- inputs that only concern the agent

    method RunAgentInput(input: Input, env: Env)
      requires agent.Valid() && env.Valid() && AgentOnly(input)
      modifies agent.Owned()
      ensures agent.Valid() && agent.Data() == AgentAfter(old(agent.Data()), input, env)
      ensures Grew()
    {
      hide Agent.Data, Core.Subscribe, Core.Next, Core.Register, Core.Heartbeat, Core.Unregister, Core.Prune, Core.SendEach, Env.Valid;
      match input {
        case Ping(s) => agent.HandlePing(s, env);
        case UnknownType(s) => agent.Send(s, Failure("Unknown type"), env);
        case SubscribeInput(s) => agent.HandleSubscribe(s, env);
        case NextInput(s) => agent.HandleNext(s, env);
        case RegisterInput(s, msg) => agent.HandleUIRegister(s, msg, env);
        case HeartbeatInput(s) => agent.HandleUIHeartbeat(s, env);
        case UnregisterInput(s) => agent.HandleUIUnregister(s, env);
        case MaintenanceTimer => agent.PruneStaleProviders(env);
      }
    }

    method HandleAgentInput(input: Input, env: Env)
      requires Valid() && env.Valid() && AgentOnly(input)
      modifies agent.Owned()
      ensures Valid() && Data() == Handle(old(Data()), input, env)
      ensures Grew()
    {
      hide Agent.Data, AgentAfter, Handle, PolkitListener.Data, PolkitListener.Valid, PinentryManager.Data, Env.Valid;
      AgentIs(Data(), input, env);
      RunAgentInput(input, env);
      listener.Untouched();
    }

    // -- every input

    method HandleManagerInput(input: Input, env: Env)
      requires Valid() && env.Valid() && !AgentOnly(input) && !PolkitInput(input)
      modifies Owned()
      ensures Valid() && Data() == Handle(old(Data()), input, env)
      ensures Grew()
    {
      hide Agent.Data, Apply, EffectOf, PolkitListener.Data, PolkitListener.Valid, PinentryManager.Data, Agent.Valid, Env.Valid;
      EffectIs(Data(), input, env);
      match input {
        case KeyringInput(s, pid, msg) => HandleKeyringRequest(s, pid, msg, env);
        case PinentryInput(s, pid, msg) => HandlePinentryRequest(s, pid, msg, env);
        case ResultInput(s, pid, id, word, error) => HandlePinentryResult(s, pid, id, word, error, env);
        case RespondInput(s, id, response) => HandleRespond(s, id, response, env);
        case CancelInput(s, id) => HandleCancel(s, id, env);
        case DisconnectInput(s) => OnClientDisconnected(s, env);
        case OutcomeTimer(timer) => OnOutcomeTimer(timer, env);
      }
    }

    method HandlePolkitInput(input: Input, env: Env)
      requires Valid() && env.Valid() && PolkitInput(input)
      modifies Owned()
      ensures Valid() && Data() == Handle(old(Data()), input, env)
      ensures Grew()
    {
      hide Agent.Data, Handle, PolkitListener.Data, PolkitListener.Valid, PinentryManager.Data, Agent.Valid, Env.Valid;
      match input {
        case PolkitInitiate(cookie, hasIdentity, result, message, actionId, user) =>
          OnPolkitInitiate(cookie, hasIdentity, result, message, actionId, user, env);
        case PolkitRequest(attempt, prompt, echo) => OnPolkitRequest(attempt, prompt, echo, env);
        case PolkitCompleted(attempt, gained) => OnPolkitCompleted(attempt, gained, env);
        case PolkitError(attempt, text) => OnPolkitError(attempt, text, env);
        case PolkitInfo(attempt, text) => OnPolkitInfo(attempt, text, env);
        case PolkitCancelAll => OnPolkitCancelAll(env);
      }
    }

    /** The objects take every step that the specification takes. */
    method HandleInput(input: Input, env: Env)
      requires Valid() && env.Valid()
      modifies Owned()
      ensures Valid() && Data() == Handle(old(Data()), input, env)
      ensures Grew()
    {
      hide Agent.Data, Handle, PolkitListener.Data, PolkitListener.Valid, PinentryManager.Data, Agent.Valid, Env.Valid;
      if AgentOnly(input) {
        HandleAgentInput(input, env);
      } else if PolkitInput(input) {
        HandlePolkitInput(input, env);
      } else {
        HandleManagerInput(input, env);
      }
    }

    /** From the start, the objects live through every run that the specification describes. */
    method Serve(steps: seq<Step>)
      requires Valid() && Data() == INITIAL && ValidSteps(steps)
      modifies Owned()
      ensures Valid() && Grew() && Data() == Run(INITIAL, steps)
    {
      hide Handle, Run, Env.Valid, AuthAgent.Data, AuthAgent.Valid;
      RunNothing(steps);
      for i := 0 to |steps|
        invariant Valid() && Grew() && Data() == Run(INITIAL, steps[..i])
      {
        RunNext(steps, i);
        HandleInput(steps[i].input, steps[i].env);
      }
      assert steps[..|steps|] == steps;
    }
  }

  lemma RunNothing(steps: seq<Step>)
    ensures Run(INITIAL, steps[..0]) == INITIAL
  {
  }

  lemma RunNext(steps: seq<Step>, i: nat)
    requires i < |steps|
    ensures Run(INITIAL, steps[..i + 1]) == Handle(Run(INITIAL, steps[..i]), steps[i].input, steps[i].env)
  {
    hide Handle;
    assert steps[..i + 1][..i] == steps[..i];
  }

  predicate AgentOnly(input: Input) {
    input.Ping? || input.UnknownType? || input.SubscribeInput? || input.NextInput? || input.RegisterInput?
    || input.HeartbeatInput? || input.UnregisterInput? || input.MaintenanceTimer?
  }

  predicate PolkitInput(input: Input) {
    input.PolkitInitiate? || input.PolkitRequest? || input.PolkitCompleted? || input.PolkitError? || input.PolkitInfo? || input.PolkitCancelAll?
  }

  function AgentAfter(c: Core, input: Input, env: Env): Core {
    match input
    case Ping(s) => c.Send(s, Pong(c.Info()), env)
    case UnknownType(s) => c.Send(s, Failure("Unknown type"), env)
    case SubscribeInput(s) => c.Subscribe(s, env)
    case NextInput(s) => c.Next(s, env)
    case RegisterInput(s, msg) => c.Register(s, msg, env)
    case HeartbeatInput(s) => c.Heartbeat(s, env)
    case UnregisterInput(s) => c.Unregister(s, env)
    case MaintenanceTimer => c.Prune(env)
    case _ => c
  }

  lemma AgentIs(d: Daemon, input: Input, env: Env)
    requires AgentOnly(input)
    ensures Handle(d, input, env) == d.(core := AgentAfter(d.core, input, env))
  {
    hide Core.Subscribe, Core.Next, Core.Register, Core.Heartbeat, Core.Unregister, Core.Prune, Core.SendEach, Apply;
    ApplySingle(d.core, EffectOf(d, input, env).ops[0], env);
  }

  /** Answers, cancellations and disconnections are handled as their effects say. */
  lemma EffectIs(d: Daemon, input: Input, env: Env)
    ensures input.RespondInput? ==> Handle(d, input, env) == After(d, Respond(d, input.s, input.id, input.response), env)
    ensures input.CancelInput? ==> Handle(d, input, env) == After(d, Cancel(d, input.s, input.id), env)
    ensures input.DisconnectInput? ==> Handle(d, input, env) == After(d, Disconnect(d, input.s, env), env)
  {
    hide Respond, Cancel, Disconnect;
  }

  lemma KeyringIs(d: Daemon, s: Socket, pid: Pid, msg: KeyringMessage, env: Env)
    ensures var (t, ops) := KeyringHandleRequest(d.keyring, d.core.store, msg, s, pid, env);
            Handle(d, KeyringInput(s, pid, msg), env) == d.(core := Apply(d.core, ops, env), keyring := t)
  {
  }

  lemma KeyringKeyed(t: KeyringTable, store: map<Id, SessionData>, msg: KeyringMessage, s: Socket, pid: Pid, env: Env)
    requires forall id :: id in t ==> t[id].cookie == id
    ensures var t' := KeyringHandleRequest(t, store, msg, s, pid, env).0; forall id :: id in t' ==> t'[id].cookie == id
  {
  }

  lemma PinentryIs(d: Daemon, s: Socket, pid: Pid, msg: PinentryMessage, env: Env)
    ensures var (t, ops) := PinentryHandleRequest(d.pinentry, d.core.store, msg, s, pid, env);
            Handle(d, PinentryInput(s, pid, msg), env) == d.(core := Apply(d.core, ops, env), pinentry := t)
  {
  }

  lemma ResultIs(d: Daemon, s: Socket, pid: Pid, id: Id, word: ResultWord, error: string, env: Env)
    ensures var (t, ops, reply) := PinentryHandleResult(d.pinentry, d.core.store, id, pid, word, error);
            Handle(d, ResultInput(s, pid, id, word, error), env) == d.(core := Apply(d.core, ops, env).Send(s, reply, env), pinentry := t)
  {
    var (t, ops, reply) := PinentryHandleResult(d.pinentry, d.core.store, id, pid, word, error);
    ApplyConcat(d.core, ops, [Say(s, reply)], env);
    ApplySingle(Apply(d.core, ops, env), Say(s, reply), env);
  }

  lemma TimerIs(d: Daemon, timer: nat, env: Env)
    ensures Handle(d, OutcomeTimer(timer), env) ==
            if timer !in d.pinentry.timers then d
            else
              var id := d.pinentry.timers[timer];
              d.(core := d.core.CloseFlow(id, Error, NO_RESULT, env), pinentry := d.pinentry.Forget(id))
  {
    if timer in d.pinentry.timers {
      ApplySingle(d.core, DoCloseFlow(d.pinentry.timers[timer], Error, NO_RESULT), env);
    }
  }

  /** Handling `input` comes down to the effect `e` of the polkit listener. */
  ghost predicate Polkitted(d: Daemon, input: Input, e: (PolkitTables, seq<Op>), env: Env) {
    Handle(d, input, env) == d.(core := Apply(d.core, e.1, env), polkit := e.0)
  }

  lemma PolkitIs(d: Daemon, input: Input, env: Env)
    ensures input.PolkitInitiate? ==>
              Polkitted(d, input, d.polkit.Initiate(d.core.store, input.cookie, input.hasIdentity, input.result,
                                                    PolkitContext(input.message, input.actionId, input.user, env)), env)
    ensures input.PolkitRequest? ==> Polkitted(d, input, d.polkit.OnRequest(input.attempt, input.prompt, input.echo), env)
    ensures input.PolkitCompleted? ==> Polkitted(d, input, d.polkit.OnCompleted(input.attempt, input.gained), env)
    ensures input.PolkitError? ==> Polkitted(d, input, d.polkit.OnError(input.attempt, input.text), env)
    ensures input.PolkitInfo? ==> Polkitted(d, input, d.polkit.OnInfo(input.attempt, input.text), env)
    ensures input.PolkitCancelAll? ==> Polkitted(d, input, d.polkit.CancelEach(env.idOrder(d.polkit.states.Keys)), env)
  {
    hide PolkitTables.Initiate, PolkitTables.OnRequest, PolkitTables.OnCompleted, PolkitTables.OnError, PolkitTables.OnInfo, PolkitTables.CancelEach;
  }

  function Cleaned(c: Core, k: KeyringTable, p: PinTables, s: Socket, env: Env): Core {
    Apply(Apply(c, KeyringCleanup(k, s, env).1, env), PinentryCleanup(p, s, env).1, env)
  }

  lemma ForsakenIs(c: Core, s: Socket, env: Env)
    ensures Apply(c, [DoUnsubscribe(s), DoRemoveProvider(s), DoRemoveWaiter(s)], env) == Forsaken(c, s, env)
  {
    assert [DoUnsubscribe(s), DoRemoveProvider(s), DoRemoveWaiter(s)] == [DoUnsubscribe(s)] + ([DoRemoveProvider(s)] + [DoRemoveWaiter(s)]);
    ApplyFirst(c, DoUnsubscribe(s), [DoRemoveProvider(s)] + [DoRemoveWaiter(s)], env);
    ApplyFirst(ApplyOne(c, DoUnsubscribe(s), env), DoRemoveProvider(s), [DoRemoveWaiter(s)], env);
    ApplySingle(ApplyOne(ApplyOne(c, DoUnsubscribe(s), env), DoRemoveProvider(s), env), DoRemoveWaiter(s), env);
  }

  lemma DisconnectIs(d: Daemon, s: Socket, env: Env)
    ensures Apply(d.core, Disconnect(d, s, env).ops, env) == Cleaned(Forsaken(d.core, s, env), d.keyring, d.pinentry, s, env).EnsureIfUnattended(env)
  {
    var front := [DoUnsubscribe(s), DoRemoveProvider(s), DoRemoveWaiter(s)];
    var kops, pops := KeyringCleanup(d.keyring, s, env).1, PinentryCleanup(d.pinentry, s, env).1;
    ForsakenIs(d.core, s, env);
    ApplyConcat(d.core, front + kops + pops, [DoEnsure], env);
    ApplyConcat(d.core, front + kops, pops, env);
    ApplyConcat(d.core, front, kops, env);
    ApplySingle(Apply(d.core, front + kops + pops, env), DoEnsure, env);
  }
}
