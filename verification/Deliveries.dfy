/** What each agent call writes to one socket. */
module Deliveries {
  import opened Base
  import opened Sessions
  import opened EventQueues
  import opened Environments
  import opened ProviderRegistries
  import opened AgentCore

  /** Only session events were added to the inbox of `t`. */
  ghost predicate AddsEvents(c: Core, c': Core, t: Socket) {
    && c.Inbox(t) <= c'.Inbox(t)
    && forall i :: |c.Inbox(t)| <= i < |c'.Inbox(t)| ==> c'.Inbox(t)[i].SessionMsg?
  }

  /** Whether a routed event is written to `t` directly, not through `next`. */
  predicate RoutedTo(c: Core, t: Socket, env: Env) {
    t in env.connected && if c.registry.HasActive() then c.registry.active == Some(t) else t in c.subscribers
  }

  lemma {:induction false} HandOverEvents(c: Core, takes: seq<Take>, t: Socket, env: Env)
    ensures AddsEvents(c, c.HandOver(takes, env), t)
    ensures (forall i :: 0 <= i < |takes| ==> takes[i].socket != t) ==> c.HandOver(takes, env).Inbox(t) == c.Inbox(t)
    decreases |takes|
  {
    if takes != [] {
      HandOverEvents(c.Send(takes[0].socket, SessionMsg(takes[0].event), env), takes[1..], t, env);
    }
  }

  lemma {:induction false} DrainTakers(q: QueueData)
    ensures forall i :: |q.taken| <= i < |q.Drain().taken| ==> q.Drain().taken[i].socket in q.waiters
    decreases |q.waiters|
  {
    if q.waiters != [] && q.events != [] {
      DrainTakers(q.(waiters := q.waiters[1..]).TakeFirst(q.waiters[0]));
      assert q.waiters == [q.waiters[0]] + q.waiters[1..];
    }
  }

  /** Routing an event writes it to `t` if `t` is addressed; anything more goes through `next`, to waiters only. */
  lemma RouteDelivers(c: Core, e: Event, t: Socket, env: Env)
    ensures AddsEvents(c, c.Route(e, env), t)
    ensures t !in c.queue.waiters ==>
              c.Route(e, env).Inbox(t) == c.Inbox(t) + if RoutedTo(c, t, env) then [SessionMsg(e)] else []
  {
    hide QueueData.Drain, Core.HandOver;
    var m, q := SessionMsg(e), c.queue.Route(e);
    var delivered := if c.registry.HasActive() then c.Send(c.registry.active.value, m, env) else c.SendAll(c.subscribers, m, env);
    assert delivered.Inbox(t) == c.Inbox(t) + if RoutedTo(c, t, env) then [m] else [];
    DrainTakers(c.queue.Enqueue(e));
    HandOverEvents(delivered.(queue := q), q.taken[|c.queue.taken|..], t, env);
  }

  /** What `t` is handed by these takes. */
  function Handed(takes: seq<Take>, t: Socket): seq<Msg>
    decreases |takes|
  {
    if takes == [] then []
    else (if takes[0].socket == t then [SessionMsg(takes[0].event)] else []) + Handed(takes[1..], t)
  }

  lemma {:induction false} HandOverDelivers(c: Core, takes: seq<Take>, t: Socket, env: Env)
    ensures c.HandOver(takes, env).Inbox(t) == c.Inbox(t) + if t in env.connected then Handed(takes, t) else []
    decreases |takes|
  {
    if takes != [] {
      var c1 := c.Send(takes[0].socket, SessionMsg(takes[0].event), env);
      var first := if takes[0].socket == t then [SessionMsg(takes[0].event)] else [];
      HandOverDelivers(c1, takes[1..], t, env);
      assert c1.Inbox(t) == c.Inbox(t) + if t in env.connected then first else [];
      assert c.Inbox(t) + first + Handed(takes[1..], t) == c.Inbox(t) + (first + Handed(takes[1..], t));
    }
  }

  /** Routing an event, exactly: it is written to `t` if `t` is addressed, and then `t` receives what it takes as a waiter. */
  lemma RouteWrites(c: Core, e: Event, t: Socket, env: Env)
    ensures var taken := c.queue.Route(e).taken;
            && c.queue.taken <= taken
            && c.Route(e, env).Inbox(t) ==
               c.Inbox(t) + (if RoutedTo(c, t, env) then [SessionMsg(e)] else [])
               + if t in env.connected then Handed(taken[|c.queue.taken|..], t) else []
  {
    hide QueueData.Drain, Core.HandOver, Handed;
    var m, q := SessionMsg(e), c.queue.Route(e);
    var delivered := if c.registry.HasActive() then c.Send(c.registry.active.value, m, env) else c.SendAll(c.subscribers, m, env);
    assert delivered.Inbox(t) == c.Inbox(t) + if RoutedTo(c, t, env) then [m] else [];
    HandOverDelivers(delivered.(queue := q), q.taken[|c.queue.taken|..], t, env);
  }

  /** A `next` is answered at once with the oldest queued event, or not at all: then its sender waits, last in line. */
  lemma NextWrites(c: Core, s: Socket, t: Socket, env: Env)
    ensures var c' := c.Next(s, env);
            if c.queue.events == [] then c' == c.(queue := c.queue.(waiters := c.queue.waiters + [s]))
            else
              && c'.Inbox(t) == c.Inbox(t) + (if t == s && s in env.connected then [SessionMsg(c.queue.events[0])] else [])
              && c'.queue.events == c.queue.events[1..] && c'.queue.waiters == c.queue.waiters
  {
  }

  /** A status goes to every provider and every subscriber. */
  predicate Informed(c: Core, t: Socket) {
    t in c.registry.providers || t in c.subscribers
  }

  lemma AnnounceDelivers(c: Core, t: Socket, env: Env)
    ensures c.Announce(env).Inbox(t) == c.Inbox(t) + if Informed(c, t) && t in env.connected then [UiActive(c.Info())] else []
  {
  }

  lemma RecomputeDelivers(c: Core, t: Socket, env: Env)
    ensures var c' := c.Recompute(env);
            c'.Inbox(t) == c.Inbox(t) +
            if c'.registry.active != c.registry.active && Informed(c', t) && t in env.connected then [UiActive(c'.Info())] else []
  {
    var c1 := c.(registry := c.registry.Recompute(env));
    AnnounceDelivers(c1, t, env);
  }
}
