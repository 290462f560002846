/** The keyring manager object: a table of pending requests, and calls to the agent. */
module KeyringHandlers {
  import opened Base
  import opened Sessions
  import opened Environments
  import opened AgentCore
  import opened KeyringManagers
  import opened Agents

  lemma CancelNext(c: Core, ids: seq<Id>, env: Env)
    requires ids != []
    ensures Apply(c, Cancellations(ids), env) == Apply(c.Close(ids[0], Cancelled, env), Cancellations(ids[1..]), env)
  {
    assert Cancellations(ids)[1..] == Cancellations(ids[1..]);
  }

  lemma OnlyNext(order: seq<Id>, i: nat, keep: set<Id>)
    requires i < |order|
    ensures Only(order[i..], keep) == (if order[i] in keep then [order[i]] else []) + Only(order[i + 1..], keep)
  {
    assert order[i..][1..] == order[i + 1..];
  }

  lemma RequestIs(c: Core, t: KeyringTable, msg: KeyringMessage, s: Socket, pid: Pid, env: Env)
    ensures var r := ParseKeyring(msg, s, pid, env);
            var (t', ops) := KeyringHandleRequest(t, c.store, msg, s, pid, env);
            if r.cookie in c.store
            then t' == t[r.cookie := r] - {r.cookie} && Apply(c, ops, env) == c.Send(s, Failure("Session ID collision"), env)
            else t' == t[r.cookie := r]
                 && Apply(c, ops, env) == ApplyOne(c, DoOpen(r.cookie, Keyring, KeyringContext(r, env), r.message, true), env)
  {
    var r := ParseKeyring(msg, s, pid, env);
    ApplySingle(c, DoOpen(r.cookie, Keyring, KeyringContext(r, env), r.message, true), env);
    ApplySingle(c, Say(s, Failure("Session ID collision")), env);
  }

  ghost function Passed(order: seq<Id>, keep: set<Id>): set<Id> {
    set id | id in order && id in keep
  }

  lemma PassedNext(order: seq<Id>, i: nat, keep: set<Id>)
    requires i < |order|
    ensures Passed(order[..i + 1], keep) == Passed(order[..i], keep) + if order[i] in keep then {order[i]} else {}
  {
    assert order[..i + 1] == order[..i] + [order[i]];
  }

  lemma WalkOf(t: KeyringTable, s: Socket, env: Env)
    requires env.Valid()
    ensures var order := env.idOrder(t.Keys);
            (forall id :: id in order ==> id in t) && Passed(order, KeyringOwned(t, s)) == KeyringOwned(t, s)
  {
    assert Enumerates(env.idOrder(t.Keys), t.Keys);
  }

  class KeyringManager {
    var pendingRequests: KeyringTable

    constructor ()
      ensures pendingRequests == map[]
    {
      pendingRequests := map[];
    }

    method HandleRequest(agent: Agent, msg: KeyringMessage, s: Socket, pid: Pid, env: Env)
      requires agent.Valid() && env.Valid()
      modifies this, agent.Owned()
      ensures agent.Valid() && fresh(agent.store.Objects() - old(agent.store.Objects()))
      ensures var (t, ops) := KeyringHandleRequest(old(pendingRequests), old(agent.Data()).store, msg, s, pid, env);
              pendingRequests == t && agent.Data() == Apply(old(agent.Data()), ops, env)
    {
      hide Agent.Data, KeyringContext, Env.Valid;
      ghost var c := agent.Data();
      ghost var goal := Apply(c, KeyringHandleRequest(pendingRequests, c.store, msg, s, pid, env).1, env);
      RequestIs(c, pendingRequests, msg, s, pid, env);
      var request := ParseKeyring(msg, s, pid, env);
      pendingRequests := pendingRequests[request.cookie := request];
      assert agent.Data() == c;
      var created := agent.OpenSession(request.cookie, Keyring, KeyringContext(request, env), request.message, true, env);
      if created {
        assert agent.Data() == goal;
        return;
      }
      assert agent.Data() == c;
      Refuse(agent, request.cookie, s, env);
    }

    method Refuse(agent: Agent, cookie: Id, s: Socket, env: Env)
      modifies this, agent`sent
      ensures pendingRequests == old(pendingRequests) - {cookie}
      ensures agent.Data() == old(agent.Data()).Send(s, Failure("Session ID collision"), env)
    {
      pendingRequests := pendingRequests - {cookie};
      assert agent.Data() == old(agent.Data());
      agent.Send(s, Failure("Session ID collision"), env);
    }

    /** Takes the request out of the table and closes its session. */
    method Close(agent: Agent, cookie: Id, result: Result, env: Env)
      requires agent.Valid() && env.Valid()
      modifies this, agent.Owned()
      ensures agent.Valid() && agent.store.Objects() <= old(agent.store.Objects())
      ensures pendingRequests == old(pendingRequests) - {cookie} && agent.Data() == old(agent.Data()).Close(cookie, result, env)
    {
      pendingRequests := pendingRequests - {cookie};
      assert agent.Data() == old(agent.Data());
      agent.CloseSession(cookie, result, env);
    }

    method HandleResponse(agent: Agent, cookie: Id, response: string, env: Env) returns (reply: Msg)
      requires agent.Valid() && env.Valid()
      modifies this, agent.Owned()
      ensures agent.Valid() && agent.store.Objects() <= old(agent.store.Objects())
      ensures if cookie in old(pendingRequests) then
                && reply == KeyringReply(cookie, Some(response)) && pendingRequests == old(pendingRequests) - {cookie}
                && agent.Data() == old(agent.Data()).Close(cookie, Success, env)
              else reply == Failure("Unknown cookie") && pendingRequests == old(pendingRequests) && agent.Data() == old(agent.Data())
    {
      if cookie !in pendingRequests {
        return Failure("Unknown cookie");
      }
      Close(agent, cookie, Success, env);
      reply := KeyringReply(cookie, Some(response));
    }

    method HandleCancel(agent: Agent, cookie: Id, env: Env) returns (reply: Msg)
      requires agent.Valid() && env.Valid()
      modifies this, agent.Owned()
      ensures agent.Valid() && agent.store.Objects() <= old(agent.store.Objects())
      ensures if cookie in old(pendingRequests) then
                && reply == KeyringReply(cookie, None) && pendingRequests == old(pendingRequests) - {cookie}
                && agent.Data() == old(agent.Data()).Close(cookie, Cancelled, env)
              else reply == Failure("Unknown cookie") && pendingRequests == old(pendingRequests) && agent.Data() == old(agent.Data())
    {
      if cookie !in pendingRequests {
        return Failure("Unknown cookie");
      }
      Close(agent, cookie, Cancelled, env);
      reply := KeyringReply(cookie, None);
    }

    /** Erases while it walks the table. */
    method CleanupForSocket(agent: Agent, s: Socket, env: Env)
      requires agent.Valid() && env.Valid()
      requires forall id :: id in pendingRequests ==> pendingRequests[id].cookie == id
      modifies this, agent.Owned()
      ensures agent.Valid() && agent.store.Objects() <= old(agent.store.Objects())
      ensures var (t, ops) := KeyringCleanup(old(pendingRequests), s, env);
              pendingRequests == t && agent.Data() == Apply(old(agent.Data()), ops, env)
    {
      hide Core.Close, Env.Valid;
      var all := pendingRequests;
      var order := env.idOrder(all.Keys);
      ghost var owned := KeyringOwned(all, s);
      WalkOf(all, s, env);
      for i := 0 to |order|
        invariant agent.Valid() && agent.store.Objects() <= old(agent.store.Objects())
        invariant pendingRequests == all - Passed(order[..i], owned)
        invariant Apply(agent.Data(), Cancellations(Only(order[i..], owned)), env) ==
                  Apply(old(agent.Data()), Cancellations(Only(order, owned)), env)
      {
        OnlyNext(order, i, owned);
        PassedNext(order, i, owned);
        if all[order[i]].socket == s {
          CancelNext(agent.Data(), Only(order[i..], owned), env);
          Close(agent, order[i], Cancelled, env);
        }
      }
      assert order[..|order|] == order;
    }
  }
}
