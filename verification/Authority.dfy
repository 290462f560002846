/** The daemon decides who may answer; each fallback client infers it from the messages it is sent. They agree. */
module Authority {
  import opened Base
  import opened Sessions
  import opened EventQueues
  import opened Environments
  import opened ProviderRegistries
  import opened AgentCore
  import opened CoreInvariants
  import opened CoreFrames
  import opened Deliveries
  import opened FallbackClients
  import opened KeyringManagers
  import opened PinentryManagers
  import opened PolkitListeners
  import opened Daemons

  /** Provider ids are issued once. */
  ghost predicate IdsInv(c: Core) {
    forall t :: t in c.registry.providers ==> c.registry.providers[t].id in c.issued && c.registry.providers[t].id != ""
  }

  /** The client on `s` knows its own id, which no other provider has, and believes it is active exactly if the
      daemon would accept its answers. */
  ghost predicate Agreement(c: Core, s: Socket) {
    var cl := ClientOf(c.Inbox(s));
    && cl.registered && cl.providerId != "" && cl.providerId in c.issued
    && (forall t :: t in c.registry.providers ==> (c.registry.providers[t].id == cl.providerId <==> t == s))
    && cl.active == c.registry.Authorizes(s)
  }

  /** As long as the daemon keeps the socket informed, the client agrees with it. */
  ghost predicate AgreesIfInformed(c: Core, s: Socket) {
    IdsInv(c) && (Informed(c, s) ==> Agreement(c, s))
  }

  // ---- messages that say nothing about authority

  predicate Neutral(m: Msg) {
    m.SessionMsg? || m.Ok? || m.Pong? || m.KeyringReply? || m.PinentryReply?
    || (m.Failure? && m.message != NOT_ACTIVE) || (m.Subscribed? && m.active.None?)
  }

  ghost predicate AddsNeutral(c: Core, c': Core, s: Socket) {
    && c.Inbox(s) <= c'.Inbox(s)
    && forall i :: |c.Inbox(s)| <= i < |c'.Inbox(s)| ==> Neutral(c'.Inbox(s)[i])
  }

  ghost predicate SameBelief(a: ClientData, b: ClientData) {
    a.registered == b.registered && a.active == b.active && a.providerId == b.providerId
  }

  lemma {:induction false} NeutralKeepsBelief(ms: seq<Msg>, n: nat)
    requires n <= |ms| && forall i :: n <= i < |ms| ==> Neutral(ms[i])
    ensures SameBelief(ClientOf(ms[..n]), ClientOf(ms))
    decreases |ms|
  {
    if n < |ms| {
      var k := |ms| - 1;
      NeutralKeepsBelief(ms[..k], n);
      assert ms[..k][..n] == ms[..n];
    } else {
      assert ms[..n] == ms;
    }
  }

  lemma NeutralAgreement(c: Core, c': Core, s: Socket)
    requires Agreement(c, s) && AddsNeutral(c, c', s)
    requires c'.registry == c.registry && c'.issued == c.issued
    ensures Agreement(c', s)
  {
    NeutralKeepsBelief(c'.Inbox(s), |c.Inbox(s)|);
    assert c'.Inbox(s)[..|c.Inbox(s)|] == c.Inbox(s);
  }

  lemma NeutralKeeps(c: Core, c': Core, s: Socket)
    requires AgreesIfInformed(c, s) && AddsNeutral(c, c', s)
    requires c'.registry == c.registry && c'.issued == c.issued && (s in c'.subscribers ==> Informed(c, s))
    ensures AgreesIfInformed(c', s)
  {
    if Informed(c, s) {
      NeutralAgreement(c, c', s);
    }
  }

  // ---- elections

  /** `c'` is `c` after an election that was announced if it changed the winner. */
  ghost predicate ElectionStep(c: Core, c': Core, s: Socket, announced: bool) {
    && Elected(c.registry) && Elected(c'.registry) && IdsInv(c')
    && c.issued <= c'.issued
    && (forall t :: t in c'.registry.providers ==>
          (t in c.registry.providers && c'.registry.providers[t].id == c.registry.providers[t].id)
          || (t != s && c'.registry.providers[t].id !in c.issued))
    && (c'.registry.active != c.registry.active ==> announced)
    && c'.Inbox(s) == c.Inbox(s) + if announced then [UiActive(c'.Info())] else []
  }

  /** Whoever wins, the winner's announcement tells the client exactly whether it won. */
  lemma ElectionAgreement(c: Core, c': Core, s: Socket, announced: bool)
    requires IdsInv(c) && Agreement(c, s) && ElectionStep(c, c', s, announced)
    ensures Agreement(c', s)
  {
    var cl, cl' := ClientOf(c.Inbox(s)), ClientOf(c'.Inbox(s));
    if announced {
      ClientStep(c.Inbox(s), UiActive(c'.Info()));
      assert cl' == cl.Receive(UiActive(c'.Info()));
    } else {
      assert c'.Inbox(s) == c.Inbox(s);
    }
    KeepsItsId(c, c', s, announced, cl.providerId);
    assert cl'.active == c'.registry.Authorizes(s);
  }

  lemma KeepsItsId(c: Core, c': Core, s: Socket, announced: bool, id: Id)
    requires IdsInv(c) && ElectionStep(c, c', s, announced) && id in c.issued
    requires forall t :: t in c.registry.providers ==> (c.registry.providers[t].id == id <==> t == s)
    ensures id in c'.issued
    ensures forall t :: t in c'.registry.providers ==> (c'.registry.providers[t].id == id <==> t == s)
  {
  }

  /** A recompute after some providers were dropped or re-stamped. */
  lemma RecomputeAgreement(c: Core, c1: Core, s: Socket, env: Env)
    requires env.Valid() && s in env.connected && AgreesIfInformed(c, s) && Elected(c.registry)
    requires c1 == c.(registry := c1.registry) && c1.registry.active == c.registry.active
    requires forall t :: t in c1.registry.providers ==>
               t in c.registry.providers && c1.registry.providers[t].id == c.registry.providers[t].id
    ensures AgreesIfInformed(c1.Recompute(env), s) && Elected(c1.Recompute(env).registry)
    ensures Informed(c1.Recompute(env), s) ==> Informed(c, s)
  {
    var c' := c1.Recompute(env);
    RecomputeElects(c1.registry, env);
    RecomputeDelivers(c1, s, env);
    if Informed(c', s) {
      ElectionAgreement(c, c', s, c'.registry.active != c.registry.active);
    }
  }

  // ---- session calls

  lemma RouteAgreement(c: Core, e: Event, s: Socket, env: Env)
    requires AgreesIfInformed(c, s)
    ensures AgreesIfInformed(c.Route(e, env), s) && c.Route(e, env).registry == c.registry
    ensures Informed(c.Route(e, env), s) == Informed(c, s)
  {
    RouteDelivers(c, e, s, env);
    RouteChanges(c, e, env);
    NeutralKeeps(c, c.Route(e, env), s);
  }

  /** The store plays no part. */
  lemma StoreAgreement(c: Core, c': Core, s: Socket)
    requires AgreesIfInformed(c, s) && c'.registry == c.registry && c'.issued == c.issued && c'.sent == c.sent && c'.subscribers == c.subscribers
    ensures AgreesIfInformed(c', s)
  {
  }

  lemma UpdateAgreement(c: Core, d: SessionData, s: Socket, env: Env)
    requires AgreesIfInformed(c, s)
    ensures AgreesIfInformed(c.Update(d, env), s) && c.Update(d, env).registry == c.registry
  {
    var c1 := c.(store := c.store[d.id := d]);
    StoreAgreement(c, c1, s);
    RouteAgreement(c1, d.UpdatedEvent(), s, env);
  }

  lemma CreateAgreement(c: Core, id: Id, source: Source, context: Context, s: Socket, env: Env)
    requires AgreesIfInformed(c, s)
    ensures AgreesIfInformed(c.Create(id, source, context, env), s)
  {
    if id !in c.store {
      var d := NewSession(id, source, context);
      var c1 := c.(store := c.store[id := d]);
      StoreAgreement(c, c1, s);
      RouteAgreement(c1, d.CreatedEvent(), s, env);
      StoreAgreement(c1.Route(d.CreatedEvent(), env), c.Create(id, source, context, env), s);
    }
  }

  lemma CloseAgreement(c: Core, id: Id, result: Result, s: Socket, env: Env)
    requires env.Valid() && s in env.connected && AgreesIfInformed(c, s) && Elected(c.registry)
    ensures AgreesIfInformed(c.Close(id, result, env), s)
  {
    if id in c.store {
      var c1 := c.(store := c.store - {id});
      StoreAgreement(c, c1, s);
      RecomputeAgreement(c1, c1, s, env);
      RouteAgreement(c1.RecomputeIfIdle(env), c.store[id].Close(result).ClosedEvent(), s, env);
    }
  }

  lemma CompleteAgreement(c: Core, id: Id, success: bool, s: Socket, env: Env)
    requires env.Valid() && s in env.connected && AgreesIfInformed(c, s) && Elected(c.registry)
    ensures AgreesIfInformed(c.Complete(id, success, env), s)
  {
    if id in c.store {
      var c1 := c.(store := c.store - {id});
      StoreAgreement(c, c1, s);
      var e := c.store[id].Close(if success then Success else Cancelled).ClosedEvent();
      RouteAgreement(c1, e, s, env);
      RecomputeAgreement(c1.Route(e, env), c1.Route(e, env), s, env);
    }
  }

  lemma CloseFlowAgreement(c: Core, id: Id, result: Result, error: string, s: Socket, env: Env)
    requires env.Valid() && s in env.connected && AgreesIfInformed(c, s) && Elected(c.registry)
    ensures AgreesIfInformed(c.CloseFlow(id, result, error, env), s)
  {
    if id in c.store {
      if error == "" {
        CloseAgreement(c, id, result, s, env);
      } else {
        UpdateAgreement(c, c.store[id].SetError(error), s, env);
        CloseAgreement(c.UpdateError(id, error, env), id, result, s, env);
      }
    }
  }

  lemma OpeningAgreement(c: Core, op: Op, s: Socket, env: Env)
    requires AgreesIfInformed(c, s) && (op.DoCreate? || op.DoOpen? || op.DoReprompt?)
    ensures AgreesIfInformed(ApplyOne(c, op, env), s)
  {
    match op
    case DoCreate(id, source, context) => CreateAgreement(c, id, source, context, s, env);
    case DoOpen(id, source, context, prompt, clearError) =>
      CreateAgreement(c, id, source, context, s, env);
      var c1 := c.Create(id, source, context, env);
      if id in c1.store {
        UpdateAgreement(c1, c1.store[id].SetPrompt(prompt, false, clearError), s, env);
      }
    case DoReprompt(id, cur, max, prompt) =>
      var c1 := c.UpdatePinentryRetry(id, cur, max);
      StoreAgreement(c, c1, s);
      if id in c1.store {
        UpdateAgreement(c1, c1.store[id].SetPrompt(prompt, false, false), s, env);
      }
  }

  lemma SessionOpAgreement(c: Core, op: Op, s: Socket, env: Env)
    requires env.Valid() && s in env.connected && AgreesIfInformed(c, s) && Elected(c.registry) && IsSessionOp(op)
    ensures AgreesIfInformed(ApplyOne(c, op, env), s)
  {
    if op.DoCreate? || op.DoOpen? || op.DoReprompt? {
      OpeningAgreement(c, op, s, env);
    } else if op.DoCloseFlow? {
      CloseFlowAgreement(c, op.id, op.result, op.error, s, env);
    } else if op.DoClose? {
      CloseAgreement(c, op.id, op.result, s, env);
    } else if op.DoComplete? {
      CompleteAgreement(c, op.id, op.success, s, env);
    } else if op.id in c.store {
      var d := c.store[op.id];
      match op
      case DoPrompt(id, prompt, echo) => UpdateAgreement(c, d.SetPrompt(prompt, echo, true), s, env);
      case DoError(id, error) => UpdateAgreement(c, d.SetError(error), s, env);
      case DoInfo(id, info) => UpdateAgreement(c, d.SetInfo(info), s, env);
    }
  }

  // ---- provider calls

  /** A new provider gets an id never issued before. */
  ghost predicate FreshId(c: Core, t: Socket, env: Env) {
    t !in c.registry.providers ==> env.uuid !in c.issued && env.uuid != ""
  }

  /** The state just before a registration is announced. */
  function Admitted(c: Core, t: Socket, msg: Registration, env: Env): Core {
    var r := c.registry.Register(t, msg, env);
    c.(registry := r.Recompute(env), issued := c.issued + {r.providers[t].id})
  }

  lemma AdmittedIsElected(c: Core, t: Socket, msg: Registration, env: Env)
    requires env.Valid() && IdsInv(c) && FreshId(c, t, env)
    ensures var r, r' := c.registry.Register(t, msg, env), Admitted(c, t, msg, env).registry;
            && Elected(r') && r'.providers == Survivors(r.providers, env)
            && IdsInv(Admitted(c, t, msg, env))
  {
    RecomputeElects(c.registry.Register(t, msg, env), env);
  }

  /** What a registration writes to another socket. */
  lemma RegisterDelivers(c: Core, t: Socket, msg: Registration, s: Socket, env: Env)
    requires t != s && s in env.connected
    ensures var a, c' := Admitted(c, t, msg, env), c.Register(t, msg, env);
            var announced := a.registry.active != c.registry.active || a.registry.active == Some(t);
            && c'.registry == a.registry && c'.issued == a.issued && c'.subscribers == c.subscribers
            && c'.Inbox(s) == c.Inbox(s) + if announced && Informed(c', s) then [UiActive(c'.Info())] else []
  {
    var r, a := c.registry.Register(t, msg, env), Admitted(c, t, msg, env);
    var c1 := a.Send(t, UiRegistered(r.providers[t].id, Some(a.registry.active == Some(t)), r.providers[t].priority), env);
    assert c1.Inbox(s) == c.Inbox(s);
    AnnounceDelivers(c1, s, env);
  }

  /** What a registration leaves behind, seen from another socket. */
  lemma OtherRegisters(c: Core, t: Socket, msg: Registration, s: Socket, env: Env)
    requires env.Valid() && s in env.connected && AgreesIfInformed(c, s) && Elected(c.registry) && FreshId(c, t, env) && t != s
    ensures AgreesIfInformed(c.Register(t, msg, env), s)
  {
    var a, c' := Admitted(c, t, msg, env), c.Register(t, msg, env);
    AdmittedIsElected(c, t, msg, env);
    RegisterDelivers(c, t, msg, s, env);
    if Informed(c', s) {
      AdmittedProviders(c, t, msg, s, env);
      ElectionAgreement(c, c', s, a.registry.active != c.registry.active || a.registry.active == Some(t));
    }
  }

  lemma AdmittedProviders(c: Core, t: Socket, msg: Registration, s: Socket, env: Env)
    requires env.Valid() && IdsInv(c) && FreshId(c, t, env) && t != s
    ensures var a := Admitted(c, t, msg, env);
            && (s in a.registry.providers ==> s in c.registry.providers)
            && forall x :: x in a.registry.providers ==>
                 (x in c.registry.providers && a.registry.providers[x].id == c.registry.providers[x].id)
                 || (x != s && a.registry.providers[x].id !in c.issued)
  {
    AdmittedIsElected(c, t, msg, env);
  }

  lemma AdmittedInTime(c: Core, msg: Registration, s: Socket, env: Env)
    requires env.Valid() && s in env.connected && IdsInv(c) && FreshId(c, s, env)
    requires env.now - env.stamp <= HEARTBEAT_TIMEOUT_MS
    requires IdsUnique(c, s)
    ensures var id, r' := c.registry.Register(s, msg, env).providers[s].id, Admitted(c, s, msg, env).registry;
            && s in r'.providers && id != "" && id in Admitted(c, s, msg, env).issued
            && forall t :: t in r'.providers ==> (r'.providers[t].id == id <==> t == s)
  {
    AdmittedIsElected(c, s, msg, env);
  }

  /** No other provider has the id of `s`. */
  ghost predicate IdsUnique(c: Core, s: Socket) {
    forall t :: t in c.registry.providers && s in c.registry.providers && t != s ==>
      c.registry.providers[t].id != c.registry.providers[s].id
  }

  /** Registering establishes agreement, whatever the client believed before. */
  lemma RegisteringAgrees(c: Core, msg: Registration, s: Socket, env: Env)
    requires env.Valid() && s in env.connected && IdsInv(c) && FreshId(c, s, env) && IdsUnique(c, s)
    requires env.now - env.stamp <= HEARTBEAT_TIMEOUT_MS
    ensures var c' := c.Register(s, msg, env); s in c'.registry.providers && IdsInv(c') && Agreement(c', s)
  {
    hide Survivors, Env.Valid, ClientOf, Registry.Recompute;
    var r, a := c.registry.Register(s, msg, env), Admitted(c, s, msg, env);
    AdmittedIsElected(c, s, msg, env);
    AdmittedInTime(c, msg, s, env);
    var nowActive := a.registry.active == Some(s);
    var m := UiRegistered(r.providers[s].id, Some(nowActive), r.providers[s].priority);
    var c1 := a.Send(s, m, env);
    ClientStep(c.Inbox(s), m);
    assert c1.Inbox(s) == c.Inbox(s) + [m];
    assert Agreement(c1, s);
    AnnounceDelivers(c1, s, env);
    if a.registry.active != c.registry.active || nowActive {
      ElectionAgreement(c1, c1.Announce(env), s, true);
      assert c.Register(s, msg, env) == c1.Announce(env);
    } else {
      assert c.Register(s, msg, env) == c1;
    }
  }

  lemma HeartbeatAgreement(c: Core, t: Socket, s: Socket, env: Env)
    requires env.Valid() && s in env.connected && AgreesIfInformed(c, s) && Elected(c.registry)
    ensures AgreesIfInformed(c.Heartbeat(t, env), s)
  {
    hide Core.Recompute, ClientOf;
    if t !in c.registry.providers {
      NeutralKeeps(c, c.Heartbeat(t, env), s);
    } else {
      var c1 := c.(registry := c.registry.Heartbeat(t, env));
      RecomputeAgreement(c, c1, s, env);
      NeutralKeeps(c1.Recompute(env), c.Heartbeat(t, env), s);
    }
  }

  lemma RemoveProviderAgreement(c: Core, t: Socket, s: Socket, env: Env)
    requires env.Valid() && s in env.connected && AgreesIfInformed(c, s) && Elected(c.registry)
    ensures AgreesIfInformed(c.RemoveProvider(t, env), s) && Elected(c.RemoveProvider(t, env).registry)
  {
    if t in c.registry.providers {
      RecomputeAgreement(c, c.(registry := c.registry.Remove(t)), s, env);
    }
  }

  lemma UnregisterAgreement(c: Core, t: Socket, s: Socket, env: Env)
    requires env.Valid() && s in env.connected && AgreesIfInformed(c, s) && Elected(c.registry)
    ensures AgreesIfInformed(c.Unregister(t, env), s)
  {
    hide Core.RemoveProvider;
    if t !in c.registry.providers {
      NeutralKeeps(c, c.Unregister(t, env), s);
    } else {
      RemoveProviderAgreement(c, t, s, env);
      var c1 := c.RemoveProvider(t, env);
      NeutralKeeps(c1, c1.Send(t, Ok(None), env), s);
      StoreAgreement(c1.Send(t, Ok(None), env), c.Unregister(t, env), s);
    }
  }

  lemma PruneAgreement(c: Core, s: Socket, env: Env)
    requires env.Valid() && s in env.connected && AgreesIfInformed(c, s) && Elected(c.registry)
    ensures AgreesIfInformed(c.Prune(env), s)
  {
    RecomputeAgreement(c, c, s, env);
    StoreAgreement(c.Recompute(env), c.Prune(env), s);
  }

  lemma {:induction false} SnapshotNeutral(ids: seq<Id>, store: map<Id, SessionData>)
    ensures forall i :: 0 <= i < |Snapshot(ids, store)| ==> Neutral(Snapshot(ids, store)[i])
  {
    if ids != [] {
      SnapshotNeutral(ids[1..], store);
    }
  }

  lemma SubscribeAgreement(c: Core, t: Socket, s: Socket, env: Env)
    requires s in env.connected && AgreesIfInformed(c, s) && (t == s ==> Informed(c, s))
    ensures AgreesIfInformed(c.Subscribe(t, env), s)
  {
    hide ClientOf;
    if t != s {
      NeutralKeeps(c, c.Subscribe(t, env), s);
    } else {
      var registered := s in c.registry.providers;
      var isActive := registered && c.registry.active == Some(s);
      var told := if !registered || isActive then Snapshot(env.idOrder(c.store.Keys), c.store) else [];
      SnapshotNeutral(env.idOrder(c.store.Keys), c.store);
      var c1 := c.(subscribers := c.subscribers + {s}).SendEach(s, told, env);
      NeutralAgreement(c, c1, s);
      var m := Subscribed(if !registered || isActive then |c.store| else 0, if registered then Some(isActive) else None);
      ClientStep(c1.Inbox(s), m);
      assert c.Subscribe(t, env) == c1.Send(s, m, env);
    }
  }

  /** Refusals are sent only to sockets that are not authorised; other direct messages say nothing about authority. */
  ghost predicate Truthful(c: Core, op: Op) {
    op.Say? || op.Answer? ==> Neutral(op.m) || (op.m == Failure(NOT_ACTIVE) && !c.registry.Authorizes(op.s))
  }

  lemma RefusalKeeps(c: Core, c': Core, s: Socket)
    requires AgreesIfInformed(c, s) && !c.registry.Authorizes(s)
    requires c'.registry == c.registry && c'.issued == c.issued && c'.subscribers == c.subscribers
    requires c'.Inbox(s) == c.Inbox(s) || c'.Inbox(s) == c.Inbox(s) + [Failure(NOT_ACTIVE)]
    ensures AgreesIfInformed(c', s)
  {
    ClientStep(c.Inbox(s), Failure(NOT_ACTIVE));
  }

  lemma SayAgreement(c: Core, op: Op, s: Socket, env: Env)
    requires AgreesIfInformed(c, s) && Truthful(c, op) && (op.Say? || op.Answer?)
    ensures AgreesIfInformed(ApplyOne(c, op, env), s)
  {
    hide AgreesIfInformed;
    if Neutral(op.m) || op.s != s {
      NeutralKeeps(c, ApplyOne(c, op, env), s);
    } else {
      RefusalKeeps(c, ApplyOne(c, op, env), s);
    }
  }

  /** What must hold of a call for the client on `s` to keep up with it. */
  ghost predicate Followed(c: Core, op: Op, s: Socket, env: Env) {
    && Truthful(c, op)
    && (op.DoRegister? ==> FreshId(c, op.s, env) && (op.s == s ==> Informed(c, s) && env.now - env.stamp <= HEARTBEAT_TIMEOUT_MS))
    && (op.DoSubscribe? && op.s == s ==> Informed(c, s))
  }

  lemma OpAgreement(c: Core, op: Op, s: Socket, env: Env)
    requires env.Valid() && s in env.connected && AgreesIfInformed(c, s) && Elected(c.registry) && Followed(c, op, s, env)
    ensures AgreesIfInformed(ApplyOne(c, op, env), s)
  {
    hide Core.Register, Core.Heartbeat, Core.Unregister, Core.RemoveProvider, Core.Prune, Core.Subscribe, Registry.Recompute, Env.Valid;
    if IsSessionOp(op) {
      SessionOpAgreement(c, op, s, env);
    } else {
      match op
      case Say(_, _) => SayAgreement(c, op, s, env);
      case Answer(_, _) => SayAgreement(c, op, s, env);
      case DoRegister(t, msg) =>
        if t == s {
          RegisteringAgrees(c, msg, s, env);
        } else {
          OtherRegisters(c, t, msg, s, env);
        }
      case DoHeartbeat(t) => HeartbeatAgreement(c, t, s, env);
      case DoUnregister(t) => UnregisterAgreement(c, t, s, env);
      case DoRemoveProvider(t) => RemoveProviderAgreement(c, t, s, env);
      case DoPrune => PruneAgreement(c, s, env);
      case DoSubscribe(t) => SubscribeAgreement(c, t, s, env);
      case DoNext(_) => NeutralKeeps(c, ApplyOne(c, op, env), s);
      case DoUnsubscribe(_) => NeutralKeeps(c, ApplyOne(c, op, env), s);
      case DoRemoveWaiter(_) => NeutralKeeps(c, ApplyOne(c, op, env), s);
      case DoEnsure => StoreAgreement(c, ApplyOne(c, op, env), s);
      case _ =>
    }
  }
}
