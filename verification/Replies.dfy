/** What the sender of an input is told. */
module Replies {
  import opened Base
  import opened Sessions
  import opened EventQueues
  import opened Environments
  import opened ProviderRegistries
  import opened ProviderLaunchers
  import opened AgentCore
  import opened KeyringManagers
  import opened PinentryManagers
  import opened PolkitListeners
  import opened Daemons
  import opened CoreFrames
  import opened HandlerCalls
  import opened Deliveries

  /** Who is in charge, as a peer is told. */
  function InCharge(r: Registry): Option<ProviderInfo> {
    if r.active.Some? && r.active.value in r.providers then
      var p := r.providers[r.active.value];
      Some(ProviderInfo(p.id, p.name, p.kind, p.priority))
    else None
  }

  /** Why an answer or a cancellation does nothing, if it does nothing. */
  function Obstacle(d: Daemon, s: Socket, id: Id): Option<string> {
    var source := if id in d.core.store then Some(d.core.store[id].source) else None;
    if d.core.registry.providers != map[] && !(s in d.core.registry.providers && d.core.registry.active == Some(s)) then Some("Not active UI provider")
    else if id in d.keyring || id in d.pinentry.pending || id in d.pinentry.awaiting || source == Some(Pinentry) || source == Some(Polkit) then None
    else if source.None? then Some("Unknown session")
    else Some("")
  }

  /** The reply to an input of a peer, where there is one. A registration is answered below; requests are answered later. */
  function Told(d: Daemon, input: Input, env: Env): Option<Msg> {
    var r, p := d.core.registry, d.pinentry;
    match input
    case Ping(s) => Some(Pong(InCharge(r)))
    case UnknownType(s) => Some(Failure("Unknown type"))
    case SubscribeInput(s) =>
      var interactive := s !in r.providers || r.active == Some(s);
      Some(Subscribed(if interactive then |d.core.store| else 0, if s in r.providers then Some(r.active == Some(s)) else None))
    case NextInput(s) => if d.core.queue.events == [] then None else Some(SessionMsg(d.core.queue.events[0]))
    case KeyringInput(s, pid, msg) =>
      if (if msg.cookie == "" then env.uuid else msg.cookie) in d.core.store then Some(Failure("Session ID collision")) else None
    case ResultInput(s, pid, id, word, error) =>
      Some(if id == "" then Failure("Missing id")
           else if id in p.owners && p.owners[id] != pid then Failure("Result sender does not own session")
           else if id !in d.core.store || d.core.store[id].source != Pinentry then Failure("Unknown pinentry session")
           else if word.SaysOther? then Failure("Invalid result type")
           else Ok(None))
    case HeartbeatInput(s) =>
      Some(if s in r.providers then Ok(Some(Handle(d, input, env).core.registry.active == Some(s))) else Failure("Provider not registered"))
    case UnregisterInput(s) => Some(if s in r.providers then Ok(None) else Failure("Provider not registered"))
    case RespondInput(s, id, _) =>
      var why := Obstacle(d, s, id);
      var over := id !in d.keyring && id !in p.pending && (id in p.awaiting || (id in d.core.store && d.core.store[id].source == Pinentry));
      Some(if why == Some("") then Failure("Session is not awaiting direct response")
           else if why.Some? then Failure(why.value)
           else if over then Failure("Session is not accepting input")
           else Ok(None))
    case CancelInput(s, id) =>
      var why := Obstacle(d, s, id);
      Some(if why == Some("") then Failure("Session is not cancellable from this path") else if why.Some? then Failure(why.value) else Ok(None))
    case _ => None
  }

  /** The last message to `s` so far is `m`. */
  ghost predicate EndsWith(c: Core, s: Socket, m: Msg) {
    |c.Inbox(s)| > 0 && c.Inbox(s)[|c.Inbox(s)| - 1] == m
  }

  lemma SaidLast(c: Core, ops: seq<Op>, s: Socket, m: Msg, env: Env)
    requires s in env.connected && ops != [] && ops[|ops| - 1] == Say(s, m)
    ensures EndsWith(Apply(c, ops, env), s, m)
  {
    hide Apply;
    var n := |ops| - 1;
    assert ops == ops[..n] + [Say(s, m)];
    ApplyConcat(c, ops[..n], [Say(s, m)], env);
    ApplySingle(Apply(c, ops[..n], env), Say(s, m), env);
  }

  lemma RespondSays(d: Daemon, s: Socket, id: Id, response: string, env: Env)
    ensures var ops := Respond(d, s, id, response).ops;
            ops != [] && Told(d, RespondInput(s, id, response), env) == Some(ops[|ops| - 1].m) && ops[|ops| - 1] == Say(s, ops[|ops| - 1].m)
  {
    hide PinTables.Answered, PolkitTables.Submit;
  }

  lemma CancelSays(d: Daemon, s: Socket, id: Id, env: Env)
    ensures var ops := Cancel(d, s, id).ops;
            ops != [] && Told(d, CancelInput(s, id), env) == Some(ops[|ops| - 1].m) && ops[|ops| - 1] == Say(s, ops[|ops| - 1].m)
  {
    hide PinTables.Forget, PolkitTables.CancelPending;
  }

  lemma ResultSays(d: Daemon, s: Socket, pid: Pid, id: Id, word: ResultWord, error: string, env: Env)
    ensures var input := ResultInput(s, pid, id, word, error);
            var ops := EffectOf(d, input, env).ops;
            ops != [] && Told(d, input, env) == Some(ops[|ops| - 1].m) && ops[|ops| - 1] == Say(s, ops[|ops| - 1].m)
  {
    hide PinTables.Forget, PinTables.CleanupAwaiting;
  }

  lemma SubscribeSays(c: Core, s: Socket, env: Env)
    requires s in env.connected
    ensures var interactive := s !in c.registry.providers || c.registry.active == Some(s);
            EndsWith(c.Subscribe(s, env), s,
                     Subscribed(if interactive then |c.store| else 0, if s in c.registry.providers then Some(c.registry.active == Some(s)) else None))
  {
    hide Snapshot;
  }

  lemma HeartbeatSays(c: Core, s: Socket, env: Env)
    requires s in env.connected
    ensures EndsWith(c.Heartbeat(s, env), s,
                     if s in c.registry.providers then Ok(Some(c.Heartbeat(s, env).registry.active == Some(s))) else Failure("Provider not registered"))
  {
    hide Core.Recompute, Registry.Heartbeat;
  }

  lemma UnregisterSays(c: Core, s: Socket, env: Env)
    requires s in env.connected
    ensures EndsWith(c.Unregister(s, env), s, if s in c.registry.providers then Ok(None) else Failure("Provider not registered"))
  {
    hide Core.RemoveProvider, Launcher.EnsureFallback;
  }

  /** A registration is answered with the provider's id, whether it won, and its priority; then everybody is told who is in
      charge, if that changed or the newcomer is. */
  lemma RegistrationTold(d: Daemon, s: Socket, msg: Registration, env: Env)
    requires env.Valid() && s in env.connected
    ensures var c, c' := d.core, Handle(d, RegisterInput(s, msg), env).core;
            var entry := c.registry.Register(s, msg, env).providers[s];
            var won := c'.registry.active == Some(s);
            var announced := won || c'.registry.active != c.registry.active;
            c'.Inbox(s) ==
            c.Inbox(s) + [UiRegistered(entry.id, Some(won), entry.priority)]
            + if announced && (s in c'.registry.providers || s in c.subscribers) then [UiActive(InCharge(c'.registry))] else []
  {
    hide Registry.Recompute, Env.Valid;
    var c := d.core;
    ApplySingle(c, DoRegister(s, msg), env);
    var r := c.registry.Register(s, msg, env);
    var q := r.Recompute(env);
    var told := c.(registry := q, issued := c.issued + {r.providers[s].id})
                .Send(s, UiRegistered(r.providers[s].id, Some(q.active == Some(s)), r.providers[s].priority), env);
    AnnounceDelivers(told, s, env);
  }

  lemma SingleSays(d: Daemon, input: Input, env: Env)
    requires (input.SubscribeInput? || input.NextInput? || input.HeartbeatInput? || input.UnregisterInput?) && input.s in env.connected
    ensures Told(d, input, env).Some? ==> EndsWith(Handle(d, input, env).core, input.s, Told(d, input, env).value)
  {
    hide Apply, Core.Subscribe, Core.Heartbeat, Core.Unregister, EndsWith, Core.Next;
    ApplySingle(d.core, EffectOf(d, input, env).ops[0], env);
    match input
    case SubscribeInput(s) => SubscribeSays(d.core, s, env);
    case NextInput(s) =>
      if d.core.queue.events != [] {
        NextSays(d.core, s, env);
      }
    case HeartbeatInput(s) => HeartbeatSays(d.core, s, env);
    case UnregisterInput(s) => UnregisterSays(d.core, s, env);
  }

  lemma NextSays(c: Core, s: Socket, env: Env)
    requires s in env.connected && c.queue.events != []
    ensures EndsWith(c.Next(s, env), s, SessionMsg(c.queue.events[0]))
  {
    NextWrites(c, s, s, env);
  }

  lemma PlainSays(d: Daemon, input: Input, env: Env)
    requires (input.Ping? || input.UnknownType? || input.KeyringInput?) && Told(d, input, env).Some?
    ensures var ops := EffectOf(d, input, env).ops; ops == [Say(input.s, Told(d, input, env).value)]
  {
    hide KeyringContext;
  }

  /** The last thing that a connected peer is sent in the step that handles its input is the reply to it. */
  lemma SenderIsTold(d: Daemon, input: Input, env: Env)
    requires Told(d, input, env).Some? && input.s in env.connected
    ensures EndsWith(Handle(d, input, env).core, input.s, Told(d, input, env).value)
  {
    hide Told, EffectOf, Apply, EndsWith, Respond, Daemons.Cancel;
    match input
    case RespondInput(s, id, response) =>
      RespondSays(d, s, id, response, env);
      AnswerEffects(d, input, env);
      SaidLast(d.core, Respond(d, s, id, response).ops, s, Told(d, input, env).value, env);
    case CancelInput(s, id) =>
      CancelSays(d, s, id, env);
      AnswerEffects(d, input, env);
      SaidLast(d.core, Cancel(d, s, id).ops, s, Told(d, input, env).value, env);
    case ResultInput(s, pid, id, word, error) =>
      ResultSays(d, s, pid, id, word, error, env);
      SaidLast(d.core, EffectOf(d, input, env).ops, s, Told(d, input, env).value, env);
    case _ => OtherIsTold(d, input, env);
  }

  lemma AnswerEffects(d: Daemon, input: Input, env: Env)
    ensures input.RespondInput? ==> EffectOf(d, input, env) == Respond(d, input.s, input.id, input.response)
    ensures input.CancelInput? ==> EffectOf(d, input, env) == Cancel(d, input.s, input.id)
  {
  }

  lemma OtherIsTold(d: Daemon, input: Input, env: Env)
    requires Told(d, input, env).Some? && input.s in env.connected && !input.RespondInput? && !input.CancelInput? && !input.ResultInput?
    ensures EndsWith(Handle(d, input, env).core, input.s, Told(d, input, env).value)
  {
    hide EffectOf, Apply, EndsWith;
    if input.Ping? || input.UnknownType? || input.KeyringInput? {
      PlainSays(d, input, env);
      SaidLast(d.core, EffectOf(d, input, env).ops, input.s, Told(d, input, env).value, env);
    } else {
      SingleSays(d, input, env);
    }
  }
}
