/** What an active provider can rebuild of the session store from the events it is sent. */
module Mirrors {
  import opened Base
  import opened Sessions
  import opened EventQueues
  import opened Environments
  import opened ProviderRegistries
  import opened AgentCore
  import opened CoreInvariants
  import opened CoreFrames
  import opened Deliveries

  /** One session as a UI sees it: its source, and the last update it was sent. */
  datatype Glimpse = Glimpse(source: Source, last: Option<Event>)

  type Mirror = map<Id, Glimpse>

  function Reflect(m: Mirror, e: Event): Mirror {
    match e
    case Created(id, source, _, _, _) => m[id := Glimpse(source, None)]
    case Updated(id, _, _, _, _, _) => if id in m then m[id := m[id].(last := Some(e))] else m
    case Closed(id, _, _) => m - {id}
  }

  /** The mirror after receiving `ms`, of which only session events matter. */
  function MirrorOf(ms: seq<Msg>): Mirror {
    if ms == [] then map[]
    else
      var before, m := MirrorOf(ms[..|ms| - 1]), ms[|ms| - 1];
      if m.SessionMsg? then Reflect(before, m.event) else before
  }

  lemma MirrorStep(ms: seq<Msg>, m: Msg)
    ensures MirrorOf(ms + [m]) == if m.SessionMsg? then Reflect(MirrorOf(ms), m.event) else MirrorOf(ms)
  {
    assert (ms + [m])[..|ms|] == ms;
  }

  /** Nothing was said about this session since its creation. */
  predicate Pristine(d: SessionData) {
    d.source == Polkit && d == NewSession(d.id, Polkit, d.context)
  }

  ghost predicate Mirrored(m: Mirror, store: map<Id, SessionData>) {
    && m.Keys == store.Keys
    && forall id :: id in store ==>
         && m[id].source == store[id].source
         && (if m[id].last.Some? then m[id].last.value == store[id].UpdatedEvent() else Pristine(store[id]))
  }

  /** The messages written to `s` from position `n` on mirror the store, and `s` gets events only as the active provider. */
  ghost predicate Mirroring(c: Core, s: Socket, n: nat) {
    && n <= |c.Inbox(s)| && Mirrored(MirrorOf(c.Inbox(s)[n..]), c.store)
    && StoreInv(c.store) && s !in c.queue.waiters && s in c.registry.providers
  }

  // ---- routing one event

  lemma RouteReflects(c: Core, e: Event, s: Socket, n: nat, env: Env)
    requires n <= |c.Inbox(s)| && s !in c.queue.waiters && RoutedTo(c, s, env)
    ensures n <= |c.Route(e, env).Inbox(s)|
    ensures MirrorOf(c.Route(e, env).Inbox(s)[n..]) == Reflect(MirrorOf(c.Inbox(s)[n..]), e)
    ensures s !in c.Route(e, env).queue.waiters
  {
    RouteDelivers(c, e, s, env);
    RouteFrame(c, e, env);
    assert c.Route(e, env).Inbox(s)[n..] == c.Inbox(s)[n..] + [SessionMsg(e)];
    MirrorStep(c.Inbox(s)[n..], SessionMsg(e));
  }

  ghost predicate ActiveHere(c: Core, s: Socket, env: Env) {
    s in env.connected && s in c.registry.providers && c.registry.active == Some(s)
  }

  lemma UpdateReflects(c: Core, d: SessionData, s: Socket, n: nat, env: Env)
    requires Mirroring(c, s, n) && ActiveHere(c, s, env) && d.id in c.store && d.source == c.store[d.id].source && !d.closed
    ensures Mirroring(c.Update(d, env), s, n)
  {
    var c1 := c.(store := c.store[d.id := d]);
    RouteReflects(c1, d.UpdatedEvent(), s, n, env);
    RouteChanges(c1, d.UpdatedEvent(), env);
  }

  lemma CreateReflects(c: Core, id: Id, source: Source, context: Context, s: Socket, n: nat, env: Env)
    requires Mirroring(c, s, n) && ActiveHere(c, s, env) && source == Polkit
    ensures Mirroring(c.Create(id, source, context, env), s, n)
  {
    if id !in c.store {
      var d := NewSession(id, source, context);
      var c1 := c.(store := c.store[id := d]);
      RouteReflects(c1, d.CreatedEvent(), s, n, env);
      RouteChanges(c1, d.CreatedEvent(), env);
    }
  }

  lemma OpenMirrored(m: Mirror, store: map<Id, SessionData>, d0: SessionData, d: SessionData)
    requires Mirrored(m, store) && d.id !in store && d0.id == d.id && d0.source == d.source
    ensures Mirrored(Reflect(Reflect(m, d0.CreatedEvent()), d.UpdatedEvent()), store[d.id := d])
  {
  }

  lemma CreateWrites(c: Core, d: SessionData, s: Socket, n: nat, env: Env)
    requires ActiveHere(c, s, env) && s !in c.queue.waiters && n <= |c.Inbox(s)|
    requires d == NewSession(d.id, d.source, d.context) && d.id !in c.store
    ensures var c' := c.Create(d.id, d.source, d.context, env);
            && c'.store == c.store[d.id := d] && c'.registry == c.registry && s !in c'.queue.waiters
            && n <= |c'.Inbox(s)| && MirrorOf(c'.Inbox(s)[n..]) == Reflect(MirrorOf(c.Inbox(s)[n..]), d.CreatedEvent())
  {
    var c1 := c.(store := c.store[d.id := d]);
    RouteReflects(c1, d.CreatedEvent(), s, n, env);
    RouteChanges(c1, d.CreatedEvent(), env);
  }

  lemma UpdateWrites(c: Core, d: SessionData, s: Socket, n: nat, env: Env)
    requires ActiveHere(c, s, env) && s !in c.queue.waiters && n <= |c.Inbox(s)|
    ensures var c' := c.Update(d, env);
            && c'.store == c.store[d.id := d] && c'.registry == c.registry && s !in c'.queue.waiters
            && n <= |c'.Inbox(s)| && MirrorOf(c'.Inbox(s)[n..]) == Reflect(MirrorOf(c.Inbox(s)[n..]), d.UpdatedEvent())
  {
    var c1 := c.(store := c.store[d.id := d]);
    RouteReflects(c1, d.UpdatedEvent(), s, n, env);
    RouteChanges(c1, d.UpdatedEvent(), env);
  }

  lemma OpenWrites(c: Core, c1: Core, d0: SessionData, d: SessionData, s: Socket, n: nat, env: Env)
    requires ActiveHere(c, s, env) && s !in c.queue.waiters && n <= |c.Inbox(s)|
    requires d0 == NewSession(d0.id, d0.source, d0.context) && d0.id !in c.store
    requires c1 == c.Create(d0.id, d0.source, d0.context, env)
    ensures ActiveHere(c1, s, env) && s !in c1.Update(d, env).queue.waiters && s in c1.Update(d, env).registry.providers
    ensures c1.Update(d, env).store == c.store[d0.id := d0][d.id := d] && n <= |c1.Update(d, env).Inbox(s)|
    ensures MirrorOf(c1.Update(d, env).Inbox(s)[n..]) == Reflect(Reflect(MirrorOf(c.Inbox(s)[n..]), d0.CreatedEvent()), d.UpdatedEvent())
  {
    CreateWrites(c, d0, s, n, env);
    UpdateWrites(c1, d, s, n, env);
  }

  /** A session of any source, created and prompted at once. */
  lemma OpenReflects(c: Core, c1: Core, d0: SessionData, d: SessionData, s: Socket, n: nat, env: Env)
    requires Mirroring(c, s, n) && ActiveHere(c, s, env) && d0.id !in c.store
    requires d0 == NewSession(d0.id, d0.source, d0.context) && d.id == d0.id && d.source == d0.source && !d.closed
    requires c1 == c.Create(d0.id, d0.source, d0.context, env)
    ensures Mirroring(c1.Update(d, env), s, n)
  {
    hide Core.Route;
    OpenWrites(c, c1, d0, d, s, n, env);
    OpenMirrored(MirrorOf(c.Inbox(s)[n..]), c.store, d0, d);
    assert c.store[d.id := d0][d.id := d] == c.store[d.id := d];
  }

  /** Events are routed while `s` is active; the store has lost the session already. */
  lemma ClosedReflects(c: Core, c1: Core, id: Id, e: Event, s: Socket, n: nat, env: Env)
    requires Mirroring(c, s, n) && id in c.store && e.Closed? && e.id == id
    requires c1.store == c.store - {id} && c1.queue == c.queue && ActiveHere(c1, s, env)
    requires n <= |c1.Inbox(s)| && MirrorOf(c1.Inbox(s)[n..]) == MirrorOf(c.Inbox(s)[n..])
    ensures Mirroring(c1.Route(e, env), s, n)
  {
    RouteReflects(c1, e, s, n, env);
    RouteChanges(c1, e, env);
  }

  /** Elections write no session events. */
  lemma RecomputeReflects(c: Core, s: Socket, n: nat, env: Env)
    requires n <= |c.Inbox(s)|
    ensures n <= |c.Recompute(env).Inbox(s)| && MirrorOf(c.Recompute(env).Inbox(s)[n..]) == MirrorOf(c.Inbox(s)[n..])
    ensures c.Recompute(env).store == c.store && c.Recompute(env).queue == c.queue
  {
    hide MirrorOf, Registry.Recompute;
    var c' := c.Recompute(env);
    RecomputeDelivers(c, s, env);
    if c'.registry.active != c.registry.active && Informed(c', s) && s in env.connected {
      var m := UiActive(c'.Info());
      assert c'.Inbox(s)[n..] == c.Inbox(s)[n..] + [m];
      MirrorStep(c.Inbox(s)[n..], m);
    } else {
      assert c'.Inbox(s) == c.Inbox(s);
    }
  }

  lemma CloseReflects(c: Core, id: Id, result: Result, s: Socket, n: nat, env: Env)
    requires Mirroring(c, s, n) && ActiveHere(c.Close(id, result, env), s, env)
    ensures Mirroring(c.Close(id, result, env), s, n)
  {
    if id in c.store {
      var c1 := c.(store := c.store - {id});
      var e := c.store[id].Close(result).ClosedEvent();
      RecomputeReflects(c1, s, n, env);
      RouteChanges(c1.RecomputeIfIdle(env), e, env);
      ClosedReflects(c, c1.RecomputeIfIdle(env), id, e, s, n, env);
    }
  }

  lemma CompleteReflects(c: Core, id: Id, success: bool, s: Socket, n: nat, env: Env)
    requires Mirroring(c, s, n) && ActiveHere(c, s, env) && ActiveHere(c.Complete(id, success, env), s, env)
    ensures Mirroring(c.Complete(id, success, env), s, n)
  {
    if id in c.store {
      var c1 := c.(store := c.store - {id});
      var e := c.store[id].Close(if success then Success else Cancelled).ClosedEvent();
      RouteChanges(c1, e, env);
      ClosedReflects(c, c1, id, e, s, n, env);
      RecomputeReflects(c1.Route(e, env), s, n, env);
    }
  }

  lemma CloseFlowReflects(c: Core, id: Id, result: Result, error: string, s: Socket, n: nat, env: Env)
    requires Mirroring(c, s, n) && ActiveHere(c, s, env) && ActiveHere(c.CloseFlow(id, result, error, env), s, env)
    ensures Mirroring(c.CloseFlow(id, result, error, env), s, n)
  {
    if id in c.store && c.store[id].source == Pinentry {
      if error == "" {
        CloseReflects(c, id, result, s, n, env);
      } else {
        UpdateReflects(c, c.store[id].SetError(error), s, n, env);
        CloseReflects(c.UpdateError(id, error, env), id, result, s, n, env);
      }
    }
  }

  /** New retry counts are told at once, with the prompt that follows. */
  lemma RepromptReflects(c: Core, id: Id, cur: int, max: int, prompt: string, s: Socket, n: nat, env: Env)
    requires Mirroring(c, s, n) && ActiveHere(c, s, env)
    ensures Mirroring(ApplyOne(c, DoReprompt(id, cur, max, prompt), env), s, n)
  {
    if id in c.store {
      var d := if c.store[id].source == Pinentry then c.store[id].SetPinentryRetry(cur, max) else c.store[id];
      var c1 := c.UpdatePinentryRetry(id, cur, max);
      var d' := d.SetPrompt(prompt, false, false);
      assert c1.Update(d', env) == c.Update(d', env) by {
        assert c1.store[id := d'] == c.store[id := d'];
      }
      UpdateReflects(c, d', s, n, env);
    }
  }

  lemma OpeningReflects(c: Core, op: Op, s: Socket, n: nat, env: Env)
    requires Mirroring(c, s, n) && ActiveHere(c, s, env)
    requires op.DoOpen? || (op.DoCreate? && op.source == Polkit)
    ensures Mirroring(ApplyOne(c, op, env), s, n)
  {
    if op.DoCreate? {
      CreateReflects(c, op.id, op.source, op.context, s, n, env);
    } else if op.id !in c.store {
      var d0 := NewSession(op.id, op.source, op.context);
      CreateWrites(c, d0, s, n, env);
      OpenReflects(c, c.Create(op.id, op.source, op.context, env), d0, d0.SetPrompt(op.prompt, false, op.clearError), s, n, env);
    }
  }

  /** Sessions created without a prompt are polkit's. */
  predicate ProperSessionOp(op: Op) {
    IsSessionOp(op) && (op.DoCreate? ==> op.source == Polkit)
  }

  lemma SessionOpReflects(c: Core, op: Op, s: Socket, n: nat, env: Env)
    requires Mirroring(c, s, n) && ActiveHere(c, s, env) && ActiveHere(ApplyOne(c, op, env), s, env) && ProperSessionOp(op)
    ensures Mirroring(ApplyOne(c, op, env), s, n)
  {
    if op.DoCreate? || op.DoOpen? {
      OpeningReflects(c, op, s, n, env);
    } else if op.DoReprompt? {
      RepromptReflects(c, op.id, op.cur, op.max, op.prompt, s, n, env);
    } else if op.DoClose? {
      CloseReflects(c, op.id, op.result, s, n, env);
    } else if op.DoCloseFlow? {
      CloseFlowReflects(c, op.id, op.result, op.error, s, n, env);
    } else if op.DoComplete? {
      CompleteReflects(c, op.id, op.success, s, n, env);
    } else if op.id in c.store {
      var d := c.store[op.id];
      if op.DoPrompt? {
        UpdateReflects(c, d.SetPrompt(op.prompt, op.echo, true), s, n, env);
      } else if op.DoError? {
        UpdateReflects(c, d.SetError(op.error), s, n, env);
      } else {
        UpdateReflects(c, d.SetInfo(op.info), s, n, env);
      }
    }
  }

  // ---- subscribing

  function Seen(ids: seq<Id>, store: map<Id, SessionData>): Mirror {
    map id | id in ids && id in store :: Glimpse(store[id].source, Some(store[id].UpdatedEvent()))
  }

  lemma SeenFirst(ids: seq<Id>, store: map<Id, SessionData>, m: Mirror)
    requires ids != []
    ensures m + Seen(ids, store) == (if ids[0] in store then m + Seen([ids[0]], store) else m) + Seen(ids[1..], store)
  {
    assert ids == [ids[0]] + ids[1..];
  }

  lemma SnapshotReflects(ms: seq<Msg>, d: SessionData)
    ensures var ms' := ms + [SessionMsg(d.CreatedEvent())] + [SessionMsg(d.UpdatedEvent())];
            MirrorOf(ms') == MirrorOf(ms)[d.id := Glimpse(d.source, Some(d.UpdatedEvent()))]
  {
    MirrorStep(ms, SessionMsg(d.CreatedEvent()));
    MirrorStep(ms + [SessionMsg(d.CreatedEvent())], SessionMsg(d.UpdatedEvent()));
  }

  /** A snapshot overwrites what it shows and leaves the rest. */
  lemma {:induction false} SnapshotShows(ms: seq<Msg>, ids: seq<Id>, store: map<Id, SessionData>)
    requires StoreInv(store)
    ensures MirrorOf(ms + Snapshot(ids, store)) == MirrorOf(ms) + Seen(ids, store)
    decreases |ids|
  {
    hide MirrorOf;
    if ids == [] {
      assert ms + Snapshot(ids, store) == ms;
    } else if ids[0] !in store {
      SeenFirst(ids, store, MirrorOf(ms));
      SnapshotShows(ms, ids[1..], store);
    } else {
      SeenFirst(ids, store, MirrorOf(ms));
      var d := store[ids[0]];
      var ms' := ms + [SessionMsg(d.CreatedEvent())] + [SessionMsg(d.UpdatedEvent())];
      SnapshotReflects(ms, d);
      SnapshotShows(ms', ids[1..], store);
      assert ms + Snapshot(ids, store) == ms' + Snapshot(ids[1..], store);
      assert MirrorOf(ms') == MirrorOf(ms) + Seen([ids[0]], store);
    }
  }

  /** What an active provider is sent when it subscribes. */
  function Shown(c: Core, env: Env): seq<Msg> {
    Snapshot(env.idOrder(c.store.Keys), c.store) + [Subscribed(|c.store|, Some(true))]
  }

  lemma SubscribeWrites(c: Core, s: Socket, n: nat, env: Env)
    requires n <= |c.Inbox(s)| && ActiveHere(c, s, env)
    ensures var c' := c.Subscribe(s, env);
            && c'.store == c.store && c'.registry == c.registry && c'.queue == c.queue
            && n <= |c'.Inbox(s)| && c'.Inbox(s)[n..] == c.Inbox(s)[n..] + Shown(c, env)
  {
    hide Snapshot;
    var told, last := Snapshot(env.idOrder(c.store.Keys), c.store), [Subscribed(|c.store|, Some(true))];
    assert c.Subscribe(s, env).Inbox(s) == c.Inbox(s) + told + last;
  }

  /** Subscribing as the active provider, at first or again. */
  lemma SubscribeMirrors(c: Core, s: Socket, n: nat, env: Env)
    requires env.Valid() && StoreInv(c.store) && s !in c.queue.waiters && ActiveHere(c, s, env)
    requires n == |c.Inbox(s)| || Mirroring(c, s, n)
    ensures Mirroring(c.Subscribe(s, env), s, n)
  {
    hide Core.Subscribe, Snapshot, Seen;
    var ids, before := env.idOrder(c.store.Keys), c.Inbox(s)[n..];
    SubscribeWrites(c, s, n, env);
    assert before + Shown(c, env) == before + Snapshot(ids, c.store) + [Subscribed(|c.store|, Some(true))];
    MirrorStep(before + Snapshot(ids, c.store), Subscribed(|c.store|, Some(true)));
    SnapshotShows(before, ids, c.store);
    assert Enumerates(ids, c.store.Keys);
    SeenAll(MirrorOf(before), ids, c.store);
  }

  lemma SeenAll(m: Mirror, ids: seq<Id>, store: map<Id, SessionData>)
    requires Enumerates(ids, store.Keys) && m.Keys <= store.Keys && StoreInv(store)
    ensures Mirrored(m + Seen(ids, store), store)
  {
  }

  /** Other peers' subscriptions write nothing to `s`. */
  lemma OtherSubscribes(c: Core, t: Socket, s: Socket, n: nat, env: Env)
    requires Mirroring(c, s, n) && t != s
    ensures Mirroring(c.Subscribe(t, env), s, n)
  {
    assert c.Subscribe(t, env).Inbox(s) == c.Inbox(s);
  }
}
