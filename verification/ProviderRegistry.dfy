/** UI providers, and the election of the one that may answer prompts. */
module ProviderRegistries {
  import opened Base
  import opened Environments

  const HEARTBEAT_TIMEOUT_MS: int := 15000

  datatype Provider = Provider(id: Id, name: string, kind: string, priority: int, lastHeartbeat: int)

  /** What a `ui.register` message says; an absent priority is chosen by kind. */
  datatype Registration = Registration(name: string, kind: string, priority: Option<int>)

  datatype Registry = Registry(providers: map<Socket, Provider>, active: Option<Socket>)
  {
    predicate HasActive() {
      active.Some? && active.value in providers
    }

    predicate Authorizes(s: Socket) {
      providers == map[] || (s in providers && active == Some(s))
    }

    function ActiveInfo(): Option<Provider> {
      if HasActive() then Some(providers[active.value]) else None
    }

    function Register(s: Socket, msg: Registration, env: Env): Registry {
      var name := if msg.name == "" then "unknown" else msg.name;
      var kind := if msg.kind == "" then name else msg.kind;
      var priority := if msg.priority.Some? then msg.priority.value
                      else if kind == "quickshell" then 100
                      else if kind == "fallback" then 10
                      else 50;
      var id := if s in providers && providers[s].id != "" then providers[s].id else env.uuid;
      this.(providers := providers[s := Provider(id, name, kind, priority, env.stamp)])
    }

    function Heartbeat(s: Socket, env: Env): Registry
      requires s in providers
    {
      this.(providers := providers[s := providers[s].(lastHeartbeat := env.stamp)])
    }

    function Remove(s: Socket): Registry {
      this.(providers := providers - {s})
    }

    /** Drops dead providers and elects the best of the rest, in hash order. */
    function Recompute(env: Env): Registry {
      Scan(env.socketOrder(providers.Keys), providers, None, env)
    }
  }

  predicate Dead(s: Socket, p: Provider, env: Env) {
    s !in env.connected || env.now - p.lastHeartbeat > HEARTBEAT_TIMEOUT_MS
  }

  predicate Better(p: Provider, q: Provider) {
    p.priority > q.priority || (p.priority == q.priority && p.lastHeartbeat > q.lastHeartbeat)
  }

  function Scan(order: seq<Socket>, providers: map<Socket, Provider>, best: Option<Socket>, env: Env): Registry {
    if order == [] then Registry(providers, best)
    else
      var s := order[0];
      if s !in providers then Scan(order[1..], providers, best, env)
      else if Dead(s, providers[s], env) then Scan(order[1..], providers - {s}, best, env)
      else if best.None? || best.value !in providers || Better(providers[s], providers[best.value])
      then Scan(order[1..], providers, Some(s), env)
      else Scan(order[1..], providers, best, env)
  }

  /** No provider beats the active one; there is none exactly when nobody is registered. */
  ghost predicate Elected(r: Registry) {
    && (r.active.None? <==> r.providers == map[])
    && (r.active.Some? ==>
          && r.active.value in r.providers
          && forall t :: t in r.providers ==> !Better(r.providers[t], r.providers[r.active.value]))
  }

  function Survivors(providers: map<Socket, Provider>, env: Env): map<Socket, Provider> {
    map s | s in providers && !Dead(s, providers[s], env) :: providers[s]
  }

  /** Part way through a walk: `order` is still to come, and `best` beats everything already passed. */
  ghost predicate Scanning(order: seq<Socket>, providers: map<Socket, Provider>, best: Option<Socket>, env: Env) {
    && Distinct(order)
    && (forall s :: s in order ==> s in providers)
    && (best.Some? ==> best.value in providers && best.value !in order)
    && (forall t :: t in providers && t !in order ==>
          !Dead(t, providers[t], env) && best.Some? && !Better(providers[t], providers[best.value]))
  }

  lemma {:induction false} ScanElects(order: seq<Socket>, providers: map<Socket, Provider>, best: Option<Socket>, env: Env)
    requires Scanning(order, providers, best, env)
    ensures var r := Scan(order, providers, best, env); r.providers == Survivors(providers, env) && Elected(r)
    decreases |order|
  {
    hide Dead;
    if order != [] {
      var s, rest := order[0], order[1..];
      assert order == [s] + rest;
      assert s !in rest && forall x :: x in order <==> x == s || x in rest;
      if Dead(s, providers[s], env) {
        ScanElects(rest, providers - {s}, best, env);
        assert Survivors(providers - {s}, env) == Survivors(providers, env);
      } else if best.None? || Better(providers[s], providers[best.value]) {
        ScanElects(rest, providers, Some(s), env);
      } else {
        ScanElects(rest, providers, best, env);
      }
    } else {
      assert Survivors(providers, env) == providers;
      assert providers != map[] ==> exists t :: t in providers;
    }
  }

  /** Whatever order the table is walked in, exactly the dead are dropped and a maximal survivor is elected. */
  lemma RecomputeElects(r: Registry, env: Env)
    requires env.Valid()
    ensures r.Recompute(env).providers == Survivors(r.providers, env)
    ensures Elected(r.Recompute(env))
  {
    ScanElects(env.socketOrder(r.providers.Keys), r.providers, None, env);
  }

  /** Skipping the dead in advance does not change who wins. */
  lemma {:induction false} ScanIgnoresDead(order: seq<Socket>, m: map<Socket, Provider>, best: Option<Socket>, env: Env)
    requires Distinct(order) && forall s :: s in order ==> s in m
    requires best.Some? ==> best.value in Survivors(m, env)
    ensures Scan(order, m, best, env).active == Scan(Only(order, Survivors(m, env).Keys), Survivors(m, env), best, env).active
    decreases |order|
  {
    if order != [] {
      var s, rest, live := order[0], order[1..], Survivors(m, env);
      assert order == [s] + rest;
      assert s !in rest && forall x :: x in rest ==> x in order;
      if Dead(s, m[s], env) {
        assert Survivors(m - {s}, env) == live;
        ScanIgnoresDead(rest, m - {s}, best, env);
      } else {
        assert Only(order, live.Keys)[1..] == Only(rest, live.Keys);
        ScanIgnoresDead(rest, m, if best.None? || Better(m[s], m[best.value]) then Some(s) else best, env);
      }
    }
  }

  /** A second election under the same circumstances changes nothing. */
  lemma RecomputeIdempotent(r: Registry, env: Env)
    requires env.Valid()
    ensures r.Recompute(env).Recompute(env) == r.Recompute(env)
  {
    var q := r.Recompute(env);
    RecomputeElects(r, env);
    RecomputeElects(q, env);
    assert Survivors(q.providers, env) == q.providers;
    assert q.providers.Keys <= r.providers.Keys;
    ScanIgnoresDead(env.socketOrder(r.providers.Keys), r.providers, None, env);
  }

  /** A non-empty registry authorises exactly one socket; an empty one authorises everybody. */
  lemma AuthorityIsUnique(r: Registry)
    requires Elected(r)
    ensures r.providers == map[] ==> forall s :: r.Authorizes(s)
    ensures r.providers != map[] ==> exists s :: s in r.providers && forall t :: r.Authorizes(t) <==> t == s
  {
    if r.providers != map[] {
      var s := r.active.value;
      assert s in r.providers && forall t :: r.Authorizes(t) <==> t == s;
    }
  }

  /** One turn of the walk. */
  lemma ScanStep(order: seq<Socket>, i: nat, m: map<Socket, Provider>, best: Option<Socket>, env: Env)
    requires i < |order| && order[i] in m && (best.Some? ==> best.value in m)
    ensures var s := order[i];
            Scan(order[i..], m, best, env) ==
            if Dead(s, m[s], env) then Scan(order[i + 1..], m - {s}, best, env)
            else if best.None? || Better(m[s], m[best.value]) then Scan(order[i + 1..], m, Some(s), env)
            else Scan(order[i + 1..], m, best, env)
  {
    assert order[i..][1..] == order[i + 1..];
  }

  class ProviderRegistry {
    var providers: map<Socket, Provider>
    var active: Option<Socket>

    function Data(): Registry
      reads this
    {
      Registry(providers, active)
    }

    constructor ()
      ensures Data() == Registry(map[], None)
    {
      providers := map[];
      active := None;
    }

    method RegisterProvider(s: Socket, msg: Registration, env: Env) returns (provider: Provider)
      modifies this
      ensures Data() == old(Data()).Register(s, msg, env)
      ensures s in Data().providers && provider == Data().providers[s]
    {
      provider := if s in providers then providers[s] else Provider("", "", "", 0, 0);
      if provider.id == "" {
        provider := provider.(id := env.uuid);
      }
      provider := provider.(name := msg.name);
      if provider.name == "" {
        provider := provider.(name := "unknown");
      }
      provider := provider.(kind := msg.kind);
      if provider.kind == "" {
        provider := provider.(kind := provider.name);
      }
      if msg.priority.Some? {
        provider := provider.(priority := msg.priority.value);
      } else if provider.kind == "quickshell" {
        provider := provider.(priority := 100);
      } else if provider.kind == "fallback" {
        provider := provider.(priority := 10);
      } else {
        provider := provider.(priority := 50);
      }
      provider := provider.(lastHeartbeat := env.stamp);
      providers := providers[s := provider];
    }

    method Heartbeat(s: Socket, env: Env) returns (known: bool)
      modifies this
      ensures known == (s in old(Data()).providers)
      ensures Data() == if known then old(Data()).Heartbeat(s, env) else old(Data())
    {
      known := s in providers;
      if known {
        providers := providers[s := providers[s].(lastHeartbeat := env.stamp)];
      }
    }

    method UnregisterProvider(s: Socket) returns (known: bool)
      modifies this
      ensures known == (s in old(Data()).providers)
      ensures Data() == old(Data()).Remove(s)
    {
      known := s in providers;
      providers := providers - {s};
    }

    method RecomputeActiveProvider(env: Env) returns (changed: bool)
      requires Distinct(env.socketOrder(Data().providers.Keys))
      requires forall s :: s in env.socketOrder(Data().providers.Keys) ==> s in Data().providers
      modifies this
      ensures Data() == old(Data()).Recompute(env)
      ensures changed == (Data().active != old(Data()).active)
    {
      var order := env.socketOrder(providers.Keys);
      var best, bestPriority, bestHeartbeat := None, 0, 0;
      var i := 0;
      while i < |order|
        invariant 0 <= i <= |order|
        invariant active == old(active) && providers.Keys <= old(providers).Keys
        invariant best.Some? ==>
                    best.value in providers && best.value !in order[i..]
                    && bestPriority == providers[best.value].priority && bestHeartbeat == providers[best.value].lastHeartbeat
        invariant forall j :: i <= j < |order| ==> order[j] in providers
        invariant Scan(order[i..], providers, best, env) == old(Data()).Recompute(env)
      {
        var s := order[i];
        var provider := providers[s];
        assert s in order[i..];
        ScanStep(order, i, providers, best, env);
        if s !in env.connected || env.now - provider.lastHeartbeat > HEARTBEAT_TIMEOUT_MS {
          providers := providers - {s};
        } else if best.None? || provider.priority > bestPriority || (provider.priority == bestPriority && provider.lastHeartbeat > bestHeartbeat) {
          best, bestPriority, bestHeartbeat := Some(s), provider.priority, provider.lastHeartbeat;
        }
        i := i + 1;
      }
      changed := active != best;
      active := best;
    }

    predicate IsAuthorized(s: Socket)
      reads this
      ensures IsAuthorized(s) == Data().Authorizes(s)
    {
      if providers == map[] then true
      else if s !in providers then false
      else active == Some(s)
    }

    predicate HasActiveProvider()
      reads this
      ensures HasActiveProvider() == Data().HasActive()
    {
      active.Some? && active.value in providers
    }
  }
}
