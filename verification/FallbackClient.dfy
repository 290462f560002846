/** The fallback UI's side of the provider protocol: it infers from messages whether it is the active provider. */
module FallbackClients {
  import opened Base
  import opened Sessions
  import opened AgentCore
  import opened Daemons

  datatype ClientRequest = AskRegister | AskSubscribe

  /** `asked` are the requests sent, `shown` the session events passed on to the window. */
  datatype ClientData = ClientData(
    connected: bool, registered: bool, subscribed: bool, active: bool, providerId: Id,
    pendingKnown: bool, pendingActive: bool, pendingId: Id,
    asked: seq<ClientRequest>, shown: seq<Event>)
  {
    function ClearPending(): ClientData {
      this.(pendingKnown := false, pendingActive := false, pendingId := "")
    }

    /** `setProviderActive`: becoming active asks for the sessions again. */
    function SetActive(now: bool): ClientData {
      if now == active then this
      else this.(active := now, asked := if now && connected && registered then asked + [AskSubscribe] else asked)
    }

    function ApplyPending(): ClientData {
      if !pendingKnown || !registered || providerId == "" then this
      else SetActive(!pendingActive || pendingId == providerId).ClearPending()
    }

    function Reset(): ClientData {
      this.(subscribed := false, registered := false, providerId := "").ClearPending().SetActive(false)
    }

    function OnConnected(): ClientData {
      var c := this.(connected := true).Reset();
      c.(asked := c.asked + [AskRegister, AskSubscribe])
    }

    function OnDisconnected(): ClientData {
      this.(connected := false).Reset()
    }

    function Receive(m: Msg): ClientData {
      match m
      case Subscribed(_, a) =>
        var c := this.(subscribed := true);
        if a.Some? then c.SetActive(a.value) else c
      case UiRegistered(id, a, _) =>
        var c := this.(registered := true, providerId := id);
        if a.Some? then c.SetActive(a.value).ClearPending() else c.ApplyPending()
      case UiActive(p) =>
        if p.Some? && (!registered || providerId == "") then this.(pendingKnown := true, pendingActive := true, pendingId := p.value.id)
        else if p.None? then
          if !registered then this.(pendingKnown := true, pendingActive := false, pendingId := "")
          else SetActive(true).ClearPending()
        else SetActive(p.value.id == providerId)
      case Failure(message) => if message == NOT_ACTIVE then SetActive(false) else this
      case SessionMsg(e) => if !active && registered then this else this.(shown := shown + [e])
      case _ => this
    }
  }

  const OFFLINE := ClientData(false, false, false, false, "", false, false, "", [], [])

  /** The client after connecting and receiving `ms`. */
  function ClientOf(ms: seq<Msg>): ClientData {
    if ms == [] then OFFLINE.OnConnected() else ClientOf(ms[..|ms| - 1]).Receive(ms[|ms| - 1])
  }

  lemma ClientStep(ms: seq<Msg>, m: Msg)
    ensures ClientOf(ms + [m]) == ClientOf(ms).Receive(m)
  {
    assert (ms + [m])[..|ms|] == ms;
  }

  // ---- what the window is shown, and what the daemon is asked

  /** Requests follow the client's belief: it asks for the sessions when it comes to think itself in charge. */
  ghost predicate AsksOnGain(c: ClientData, c': ClientData) {
    c'.shown == c.shown && c'.connected == c.connected
    && c'.asked == c.asked + if c'.active && !c.active && c'.connected && c'.registered then [AskSubscribe] else []
  }

  lemma SettingAsks(c: ClientData, now: bool)
    ensures AsksOnGain(c, c.SetActive(now)) && AsksOnGain(c, c.ApplyPending())
  {
  }

  lemma ControlAsks(c: ClientData, m: Msg)
    requires m.Subscribed? || m.UiRegistered? || m.UiActive? || m.Failure?
    ensures AsksOnGain(c, c.Receive(m))
  {
    hide ClientData.SetActive, ClientData.ApplyPending;
    match m
    case Subscribed(_, a) =>
      var c1 := c.(subscribed := true);
      SettingAsks(c1, a.Some? && a.value);
    case UiRegistered(id, a, _) =>
      var c1 := c.(registered := true, providerId := id);
      SettingAsks(c1, a.Some? && a.value);
    case UiActive(p) =>
      SettingAsks(c, p.None? || p.value.id == c.providerId);
    case Failure(_) =>
      SettingAsks(c, false);
  }

  /** Session events reach the window unless another provider is in charge; and the client asks for the sessions whenever
      a message puts it in charge. */
  lemma ReceivingShows(c: ClientData, m: Msg)
    ensures var c' := c.Receive(m);
            && c'.shown == c.shown + (if m.SessionMsg? && (c.active || !c.registered) then [m.event] else [])
            && c'.asked == c.asked + (if c'.active && !c.active && c'.connected && c'.registered then [AskSubscribe] else [])
            && c'.connected == c.connected
  {
    if m.Subscribed? || m.UiRegistered? || m.UiActive? || m.Failure? {
      hide ClientData.Receive;
      ControlAsks(c, m);
    }
  }

  lemma ConnectionAsks(c: ClientData)
    ensures c.OnConnected().asked == c.asked + [AskRegister, AskSubscribe] && c.OnDisconnected().asked == c.asked
    ensures c.OnConnected() == ClientData(true, false, false, false, "", false, false, "", c.OnConnected().asked, c.shown)
    ensures c.OnDisconnected() == ClientData(false, false, false, false, "", false, false, "", c.asked, c.shown)
  {
  }

  function EventsIn(ms: seq<Msg>): seq<Event> {
    if ms == [] then []
    else EventsIn(ms[..|ms| - 1]) + if ms[|ms| - 1].SessionMsg? then [ms[|ms| - 1].event] else []
  }

  /** While the client is in charge, the window is shown every session event that arrives, in order. */
  lemma {:induction false} ActiveShowsAll(ms: seq<Msg>, n: nat)
    requires n <= |ms| && forall i :: n <= i < |ms| ==> ClientOf(ms[..i]).active
    ensures ClientOf(ms).shown == ClientOf(ms[..n]).shown + EventsIn(ms[n..])
    decreases |ms|
  {
    hide ClientData.Receive;
    if n == |ms| {
      assert ms[..n] == ms && ms[n..] == [];
    } else {
      var last := |ms| - 1;
      assert ms[..last][..n] == ms[..n] && ms[n..][..last - n] == ms[..last][n..];
      forall i | n <= i < last ensures ClientOf(ms[..last][..i]).active {
        assert ms[..last][..i] == ms[..i];
      }
      ActiveShowsAll(ms[..last], n);
      ReceivingShows(ClientOf(ms[..last]), ms[last]);
    }
  }

  class FallbackClient {
    var connected: bool
    var registered: bool
    var subscribed: bool
    var active: bool
    var providerId: Id
    var pendingKnown: bool
    var pendingActive: bool
    var pendingId: Id
    var asked: seq<ClientRequest>
    var shown: seq<Event>

    function Data(): ClientData
      reads this
    {
      ClientData(connected, registered, subscribed, active, providerId, pendingKnown, pendingActive, pendingId, asked, shown)
    }

    constructor ()
      ensures Data() == OFFLINE
    {
      connected, registered, subscribed, active := false, false, false, false;
      pendingKnown, pendingActive := false, false;
      providerId, pendingId := "", "";
      asked, shown := [], [];
    }

    method SetProviderActive(now: bool)
      modifies this
      ensures Data() == old(Data()).SetActive(now)
    {
      if now == active {
        return;
      }
      active := now;
      if active && connected && registered {
        asked := asked + [AskSubscribe];
      }
    }

    method ClearPending()
      modifies this
      ensures Data() == old(Data()).ClearPending()
    {
      pendingKnown, pendingActive, pendingId := false, false, "";
    }

    method ApplyPendingProviderState()
      modifies this
      ensures Data() == old(Data()).ApplyPending()
    {
      if !pendingKnown || !registered || providerId == "" {
        return;
      }
      var shouldBeActive := true;
      if pendingActive {
        shouldBeActive := pendingId == providerId;
      }
      SetProviderActive(shouldBeActive);
      ClearPending();
    }

    method OnConnected()
      modifies this
      ensures Data() == old(Data()).OnConnected()
    {
      connected := true;
      subscribed := false;
      registered := false;
      providerId := "";
      ClearPending();
      SetProviderActive(false);
      asked := asked + [AskRegister];
      asked := asked + [AskSubscribe];
      assert old(asked) + [AskRegister, AskSubscribe] == old(asked) + [AskRegister] + [AskSubscribe];
    }

    method OnDisconnected()
      modifies this
      ensures Data() == old(Data()).OnDisconnected()
    {
      connected := false;
      subscribed := false;
      registered := false;
      providerId := "";
      ClearPending();
      SetProviderActive(false);
    }

    method HandleMessage(m: Msg)
      modifies this
      ensures Data() == old(Data()).Receive(m)
    {
      match m {
        case Subscribed(_, a) =>
          subscribed := true;
          if a.Some? {
            SetProviderActive(a.value);
          }
        case UiRegistered(id, a, _) =>
          registered := true;
          providerId := id;
          if a.Some? {
            SetProviderActive(a.value);
            ClearPending();
          } else {
            ApplyPendingProviderState();
          }
        case UiActive(p) =>
          if p.Some? && (!registered || providerId == "") {
            pendingKnown, pendingActive, pendingId := true, true, p.value.id;
            return;
          }
          if p.None? {
            if !registered {
              pendingKnown, pendingActive, pendingId := true, false, "";
              return;
            }
            SetProviderActive(true);
            ClearPending();
            return;
          }
          SetProviderActive(p.value.id == providerId);
        case Failure(message) =>
          if message == NOT_ACTIVE {
            SetProviderActive(false);
          }
        case SessionMsg(e) =>
          if !active && registered {
            return;
          }
          shown := shown + [e];
        case _ =>
      }
    }
  }
}
