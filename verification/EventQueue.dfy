/** The bounded event queue behind `next`: events wait for callers, or callers wait for events. */
module EventQueues {
  import opened Base
  import opened Sessions

  const MAX_QUEUED: nat := 256

  /** An event handed to a `next` caller: the event's position among all routed events, and how many
      events had been routed when it was handed over. */
  datatype Take = Take(index: int, at: nat, socket: Socket, event: Event)

  /** The queue, the callers waiting for an event, and two histories: every event ever routed, and every take. */
  datatype QueueData = QueueData(events: seq<Event>, waiters: seq<Socket>, routed: seq<Event>, taken: seq<Take>)
  {
    /** Position, among all routed events, of the oldest queued one. */
    function Head(): int {
      |routed| - |events|
    }

    function Enqueue(e: Event): QueueData {
      this.(events := (if |events| >= MAX_QUEUED then events[1..] else events) + [e], routed := routed + [e])
    }

    function TakeFirst(s: Socket): QueueData
      requires events != []
    {
      this.(events := events[1..], taken := taken + [Take(Head(), |routed|, s, events[0])])
    }

    function Drain(): (r: QueueData)
      ensures taken <= r.taken
      decreases |waiters|
    {
      if waiters == [] || events == [] then this
      else this.(waiters := waiters[1..]).TakeFirst(waiters[0]).Drain()
    }

    function Route(e: Event): QueueData {
      Enqueue(e).Drain()
    }

    function Next(s: Socket): QueueData {
      if events == [] then this.(waiters := waiters + [s]) else TakeFirst(s)
    }

    function RemoveWaiter(s: Socket): QueueData {
      this.(waiters := Without(waiters, s))
    }
  }

  const EMPTY_QUEUE := QueueData([], [], [], [])

  function Without(xs: seq<Socket>, s: Socket): seq<Socket> {
    if xs == [] then []
    else if xs[0] == s then Without(xs[1..], s)
    else [xs[0]] + Without(xs[1..], s)
  }

  lemma {:induction false} WithoutElements(xs: seq<Socket>, s: Socket)
    ensures forall x :: x in Without(xs, s) <==> x in xs && x != s
  {
    if xs != [] {
      WithoutElements(xs[1..], s);
      assert xs == [xs[0]] + xs[1..];
    }
  }

  lemma {:induction false} WithoutAppend(xs: seq<Socket>, x: Socket, s: Socket)
    ensures Without(xs + [x], s) == Without(xs, s) + (if x == s then [] else [x])
  {
    if xs == [] {
      assert [x][1..] == [];
    } else {
      assert (xs + [x])[1..] == xs[1..] + [x];
      WithoutAppend(xs[1..], x, s);
    }
  }

  /** The queue is the newest part of the routed history. */
  ghost predicate IsTail(q: QueueData) {
    |q.events| <= MAX_QUEUED && |q.events| <= |q.routed| && q.events == q.routed[q.Head()..]
  }

  ghost predicate NoIdleWaiter(q: QueueData) {
    q.waiters != [] ==> q.events == []
  }

  /** Takes are genuine and in routed order, hence each event is taken at most once. */
  ghost predicate InOrder(q: QueueData) {
    && (forall k :: 0 <= k < |q.taken| ==>
          && 0 <= q.taken[k].index < q.Head() && q.taken[k].index < q.taken[k].at <= |q.routed|
          && q.taken[k].event == q.routed[q.taken[k].index])
    && (forall j, k :: 0 <= j < k < |q.taken| ==> q.taken[j].index < q.taken[k].index)
  }

  ghost predicate WasTaken(q: QueueData, i: int) {
    exists k :: 0 <= k < |q.taken| && q.taken[k].index == i
  }

  /** An event that left the queue untaken was pushed out: 256 newer events were routed, and when the last
      of them arrived nothing newer than the lost event had been handed to anyone. */
  ghost predicate LostOnlyToOverflow(q: QueueData) {
    forall i :: 0 <= i < q.Head() && !WasTaken(q, i) ==> PushedOut(q, i)
  }

  ghost predicate PushedOut(q: QueueData, i: int) {
    && i + MAX_QUEUED < |q.routed|
    && forall k :: 0 <= k < |q.taken| && i < q.taken[k].index ==> q.taken[k].at > i + MAX_QUEUED
  }

  ghost predicate QueueInv(q: QueueData) {
    IsTail(q) && NoIdleWaiter(q) && InOrder(q) && LostOnlyToOverflow(q)
  }

  lemma StillTaken(q: QueueData, r: QueueData, i: int)
    requires q.taken <= r.taken
    ensures WasTaken(q, i) ==> WasTaken(r, i)
  {
    if k :| 0 <= k < |q.taken| && q.taken[k].index == i {
      assert r.taken[k].index == i;
    }
  }

  lemma EnqueueKeeps(q: QueueData, e: Event)
    requires IsTail(q) && InOrder(q) && LostOnlyToOverflow(q)
    ensures var r := q.Enqueue(e); IsTail(r) && InOrder(r) && LostOnlyToOverflow(r)
  {
    var r := q.Enqueue(e);
    forall i | 0 <= i < r.Head() && !WasTaken(r, i)
      ensures PushedOut(r, i)
    {
      if i < q.Head() {
        StillTaken(q, r, i);
        assert PushedOut(q, i);
      }
    }
  }

  lemma TakeFirstKeeps(q: QueueData, s: Socket)
    requires IsTail(q) && InOrder(q) && LostOnlyToOverflow(q) && q.events != []
    ensures var r := q.TakeFirst(s); IsTail(r) && InOrder(r) && LostOnlyToOverflow(r)
  {
    var r := q.TakeFirst(s);
    assert r.taken[|q.taken|].index == q.Head();
    forall i | 0 <= i < r.Head() && !WasTaken(r, i)
      ensures PushedOut(r, i)
    {
      assert i != q.Head();
      StillTaken(q, r, i);
      assert PushedOut(q, i);
    }
  }

  lemma {:induction false} DrainKeeps(q: QueueData)
    requires IsTail(q) && InOrder(q) && LostOnlyToOverflow(q)
    ensures QueueInv(q.Drain())
    ensures q.Drain().routed == q.routed
    decreases |q.waiters|
  {
    if q.waiters != [] && q.events != [] {
      var p := q.(waiters := q.waiters[1..]);
      assert LostOnlyToOverflow(p) by {
        forall i | 0 <= i < p.Head() && !WasTaken(p, i) ensures PushedOut(p, i) {
          assert !WasTaken(q, i);
          assert PushedOut(q, i);
        }
      }
      TakeFirstKeeps(p, q.waiters[0]);
      DrainKeeps(p.TakeFirst(q.waiters[0]));
    }
  }

  /** What every queue operation keeps. */
  lemma RouteKeeps(q: QueueData, e: Event)
    requires QueueInv(q)
    ensures QueueInv(q.Route(e)) && q.Route(e).routed == q.routed + [e]
  {
    EnqueueKeeps(q, e);
    DrainKeeps(q.Enqueue(e));
  }

  lemma NextKeeps(q: QueueData, s: Socket)
    requires QueueInv(q)
    ensures QueueInv(q.Next(s)) && q.Next(s).routed == q.routed
  {
    if q.events != [] {
      TakeFirstKeeps(q, s);
    } else {
      SameTakes(q, q.Next(s));
    }
  }

  lemma RemoveWaiterKeeps(q: QueueData, s: Socket)
    requires QueueInv(q)
    ensures QueueInv(q.RemoveWaiter(s)) && q.RemoveWaiter(s).routed == q.routed
  {
    WithoutElements(q.waiters, s);
    if q.RemoveWaiter(s).waiters != [] {
      assert q.RemoveWaiter(s).waiters[0] in q.waiters;
    }
    SameTakes(q, q.RemoveWaiter(s));
  }

  /** Only the waiters differ. */
  lemma SameTakes(q: QueueData, r: QueueData)
    requires r == q.(waiters := r.waiters) && LostOnlyToOverflow(q)
    ensures LostOnlyToOverflow(r)
  {
    forall i | 0 <= i < r.Head() && !WasTaken(r, i) ensures PushedOut(r, i) {
      assert !WasTaken(q, i);
      assert PushedOut(q, i);
    }
  }

  /** A routed event reaches the oldest waiter at once, or else it is queued. */
  lemma RouteHandsOver(q: QueueData, e: Event)
    requires QueueInv(q)
    ensures q.waiters != [] ==>
              q.Route(e) == QueueData([], q.waiters[1..], q.routed + [e], q.taken + [Take(|q.routed|, |q.routed| + 1, q.waiters[0], e)])
    ensures q.waiters == [] ==> q.Route(e) == q.Enqueue(e)
  {
    if q.waiters != [] {
      var p := q.Enqueue(e);
      assert p.events == [e];
      var r := p.(waiters := p.waiters[1..]).TakeFirst(p.waiters[0]);
      assert p.Drain() == r.Drain();
      assert r.events == [] && r.Drain() == r;
    }
  }

  /** The queue object. Draining returns what it hands over; sending it is the caller's business. */
  class EventQueue {
    var events: seq<Event>
    var waiters: seq<Socket>
    ghost var routed: seq<Event>
    ghost var taken: seq<Take>

    ghost function Data(): QueueData
      reads this
    {
      QueueData(events, waiters, routed, taken)
    }

    constructor ()
      ensures Data() == EMPTY_QUEUE
    {
      events := [];
      waiters := [];
      routed := [];
      taken := [];
    }

    predicate IsEmpty()
      reads this
    {
      events == []
    }

    method TakeNext(ghost s: Socket) returns (event: Event)
      requires Data().events != []
      modifies this
      ensures event == old(Data()).events[0] && Data() == old(Data()).TakeFirst(s)
    {
      event := events[0];
      taken := taken + [Take(|routed| - |events|, |routed|, s, event)];
      events := events[1..];
    }

    method Enqueue(e: Event)
      modifies this
      ensures Data() == old(Data()).Enqueue(e)
    {
      if |events| >= MAX_QUEUED {
        events := events[1..];
      }
      events := events + [e];
      routed := routed + [e];
    }

    method SubscribeNext(s: Socket)
      modifies this
      ensures Data() == old(Data()).(waiters := old(Data()).waiters + [s])
    {
      waiters := waiters + [s];
    }

    method RemoveWaiter(s: Socket)
      modifies this
      ensures Data() == old(Data()).RemoveWaiter(s)
    {
      var all, kept := waiters, [];
      for i := 0 to |all|
        invariant Data() == old(Data())
        invariant kept == Without(all[..i], s)
      {
        assert all[..i + 1] == all[..i] + [all[i]];
        WithoutAppend(all[..i], all[i], s);
        if all[i] != s {
          kept := kept + [all[i]];
        }
      }
      assert all[..|all|] == all;
      waiters := kept;
    }

    /** Pairs waiters with events, oldest first, and returns the pairs in the order they are handed over. */
    method DrainToWaiters() returns (handed: seq<(Socket, Event)>)
      modifies this
      ensures Data() == old(Data()).Drain()
      ensures |Data().taken| == |old(Data()).taken| + |handed|
      ensures forall k :: 0 <= k < |handed| ==>
                var t := Data().taken[|old(Data()).taken| + k]; handed[k] == (t.socket, t.event)
    {
      handed := [];
      while waiters != [] && events != []
        invariant Data().Drain() == old(Data()).Drain()
        invariant |taken| == |old(taken)| + |handed| && old(taken) <= taken
        invariant forall k :: 0 <= k < |handed| ==> var t := taken[|old(taken)| + k]; handed[k] == (t.socket, t.event)
        decreases |waiters|
      {
        var s := waiters[0];
        waiters := waiters[1..];
        var e := TakeNext(s);
        handed := handed + [(s, e)];
      }
    }
  }
}
