/** Small facts about the agent's specification that its loops rest on. */
module AgentSteps {
  import opened Base
  import opened Sessions
  import opened EventQueues
  import opened Environments
  import opened ProviderRegistries
  import opened AgentCore

  lemma SendNone(c: Core, m: Msg, env: Env)
    ensures c.SendAll({}, m, env) == c
  {
    assert c.SendAll({}, m, env).sent == c.sent;
  }

  lemma SendOne(c: Core, before: set<Socket>, s: Socket, m: Msg, env: Env)
    requires s !in before
    ensures c.SendAll(before, m, env).Send(s, m, env) == c.SendAll(before + {s}, m, env)
  {
    var one, both := c.SendAll(before, m, env).Send(s, m, env), c.SendAll(before + {s}, m, env);
    assert one.sent.Keys == both.sent.Keys;
    forall t | t in one.sent ensures one.sent[t] == both.sent[t] {
    }
    assert one.sent == both.sent;
  }

  lemma SendOneMore(c: Core, to: seq<Socket>, i: nat, m: Msg, env: Env)
    requires Distinct(to) && i < |to|
    ensures c.SendAll(Members(to[..i]), m, env).Send(to[i], m, env) == c.SendAll(Members(to[..i + 1]), m, env)
  {
    assert to[i] !in Members(to[..i]);
    assert Members(to[..i + 1]) == Members(to[..i]) + {to[i]};
    SendOne(c, Members(to[..i]), to[i], m, env);
  }

  /** The first half of `Route`. */
  function Delivered(c: Core, e: Event, env: Env): Core {
    if c.registry.HasActive() then c.Send(c.registry.active.value, SessionMsg(e), env) else c.SendAll(c.subscribers, SessionMsg(e), env)
  }

  /** `drainToWaiters`, with the sending. */
  function Drained(c: Core, env: Env): Core {
    c.(queue := c.queue.Drain()).HandOver(c.queue.Drain().taken[|c.queue.taken|..], env)
  }

  lemma RouteIs(c: Core, e: Event, env: Env)
    ensures c.Route(e, env) == Drained(Delivered(c, e, env).(queue := c.queue.Enqueue(e)), env)
  {
  }

  /** A subscriber that was served as a provider, or is not there, is not served again. */
  lemma SendOneRest(c: Core, providers: set<Socket>, to: seq<Socket>, i: nat, m: Msg, env: Env)
    requires Distinct(to) && i < |to|
    ensures var before, after := c.SendAll(providers + Members(to[..i]), m, env), c.SendAll(providers + Members(to[..i + 1]), m, env);
            after == if to[i] in providers && to[i] in env.connected then before else before.Send(to[i], m, env)
  {
    var some := providers + Members(to[..i]);
    assert providers + Members(to[..i + 1]) == some + {to[i]};
    if to[i] in providers {
      assert some + {to[i]} == some;
    } else {
      assert to[i] !in Members(to[..i]);
      SendOne(c, some, to[i], m, env);
    }
  }

  lemma SendEachTwice(c: Core, s: Socket, a: seq<Msg>, b: seq<Msg>, env: Env)
    ensures c.SendEach(s, a, env).SendEach(s, b, env) == c.SendEach(s, a + b, env)
  {
    assert a == [] ==> a + b == b;
    assert b == [] ==> a + b == a;
    if s in env.connected && a != [] && b != [] {
      assert c.Inbox(s) + a + b == c.Inbox(s) + (a + b);
      assert c.SendEach(s, a, env).SendEach(s, b, env).sent == c.SendEach(s, a + b, env).sent;
    }
  }

  /** One turn of the walk over the sessions that a new subscriber is shown. */
  lemma ShowOne(c: Core, s: Socket, ids: seq<Id>, i: nat, store: map<Id, SessionData>, env: Env)
    requires i < |ids| && ids[i] in store
    ensures var d := store[ids[i]];
            c.SendEach(s, Snapshot(ids[i..], store), env) ==
            c.Send(s, SessionMsg(d.CreatedEvent()), env).Send(s, SessionMsg(d.UpdatedEvent()), env).SendEach(s, Snapshot(ids[i + 1..], store), env)
  {
    var d := store[ids[i]];
    var a, b := [SessionMsg(d.CreatedEvent())], [SessionMsg(d.UpdatedEvent())];
    assert ids[i..][1..] == ids[i + 1..];
    SendEachTwice(c, s, a, b, env);
    SendEachTwice(c, s, a + b, Snapshot(ids[i + 1..], store), env);
    assert a + b == [SessionMsg(d.CreatedEvent()), SessionMsg(d.UpdatedEvent())];
  }

  lemma ShowNothing(c: Core, s: Socket, env: Env)
    ensures c.SendEach(s, [], env) == c
  {
  }

  lemma RemoveOne(xs: seq<Socket>, i: nat)
    requires Distinct(xs) && i < |xs|
    ensures var ys := xs[..i] + xs[i + 1..]; Distinct(ys) && Members(ys) == Members(xs) - {xs[i]}
  {
  }

  /** The agent after a socket has left its own tables. */
  function Forsaken(c: Core, s: Socket, env: Env): Core {
    ApplyOne(ApplyOne(ApplyOne(c, DoUnsubscribe(s), env), DoRemoveProvider(s), env), DoRemoveWaiter(s), env)
  }

  lemma ForsakenSteps(c: Core, s: Socket, env: Env)
    ensures var c1 := c.(subscribers := c.subscribers - {s}).RemoveProvider(s, env);
            Forsaken(c, s, env) == c1.(queue := c1.queue.RemoveWaiter(s))
  {
  }
}
