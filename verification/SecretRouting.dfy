/** Where the user's answers go. */
module SecretRouting {
  import opened Base
  import opened Sessions
  import opened EventQueues
  import opened Environments
  import opened ProviderRegistries
  import opened AgentCore
  import opened CoreFrames
  import opened KeyringManagers
  import opened PinentryManagers
  import opened PolkitListeners
  import opened Daemons
  import opened HandlerCalls
  import opened TableAgreement

  /** Neither an answer to a keyring request nor one to a pinentry request. */
  predicate Plain(m: Msg) {
    !m.KeyringReply? && !m.PinentryReply?
  }

  /** Carries what the user answered. */
  predicate Secret(m: Msg) {
    (m.KeyringReply? && m.secret.Some?) || (m.PinentryReply? && !m.outcome.Declined?)
  }

  function Secrets(ms: seq<Msg>): seq<Msg> {
    if ms == [] then []
    else Secrets(ms[..|ms| - 1]) + if Secret(ms[|ms| - 1]) then [ms[|ms| - 1]] else []
  }

  /** Only plain messages were added to the inbox of `t`. */
  ghost predicate AddsPlain(c: Core, c': Core, t: Socket) {
    && c.Inbox(t) <= c'.Inbox(t)
    && forall i :: |c.Inbox(t)| <= i < |c'.Inbox(t)| ==> Plain(c'.Inbox(t)[i])
  }

  lemma {:induction false} PlainHoldsNoSecret(ms: seq<Msg>, n: nat)
    requires n <= |ms| && forall i :: n <= i < |ms| ==> Plain(ms[i])
    ensures Secrets(ms) == Secrets(ms[..n])
    decreases |ms|
  {
    if n < |ms| {
      PlainHoldsNoSecret(ms[..|ms| - 1], n);
      assert ms[..|ms| - 1][..n] == ms[..n];
    } else {
      assert ms[..n] == ms;
    }
  }

  lemma SendPlain(c: Core, s: Socket, ms: seq<Msg>, t: Socket, env: Env)
    requires forall i :: 0 <= i < |ms| ==> Plain(ms[i])
    ensures AddsPlain(c, c.SendEach(s, ms, env), t)
  {
  }

  lemma SendAllPlain(c: Core, to: set<Socket>, m: Msg, t: Socket, env: Env)
    requires Plain(m)
    ensures AddsPlain(c, c.SendAll(to, m, env), t)
  {
  }

  lemma {:induction false} HandOverPlain(c: Core, takes: seq<Take>, t: Socket, env: Env)
    ensures AddsPlain(c, c.HandOver(takes, env), t)
    decreases |takes|
  {
    if takes != [] {
      var m := SessionMsg(takes[0].event);
      SendPlain(c, takes[0].socket, [m], t, env);
      HandOverPlain(c.Send(takes[0].socket, m, env), takes[1..], t, env);
    }
  }

  lemma RoutePlain(c: Core, e: Event, t: Socket, env: Env)
    ensures AddsPlain(c, c.Route(e, env), t)
  {
    var m, q := SessionMsg(e), c.queue.Route(e);
    var delivered := if c.registry.HasActive() then c.Send(c.registry.active.value, m, env) else c.SendAll(c.subscribers, m, env);
    assert AddsPlain(c, delivered, t);
    HandOverPlain(delivered.(queue := q), q.taken[|c.queue.taken|..], t, env);
  }

  lemma RecomputePlain(c: Core, t: Socket, env: Env)
    ensures AddsPlain(c, c.Recompute(env), t)
  {
    var r := c.registry.Recompute(env);
    var c1 := c.(registry := r);
    SendAllPlain(c1, r.providers.Keys + c.subscribers, UiActive(c1.Info()), t, env);
  }

  lemma UpdatePlain(c: Core, d: SessionData, t: Socket, env: Env)
    ensures AddsPlain(c, c.Update(d, env), t)
  {
    RoutePlain(c.(store := c.store[d.id := d]), d.UpdatedEvent(), t, env);
  }

  lemma CreatePlain(c: Core, id: Id, source: Source, context: Context, t: Socket, env: Env)
    ensures AddsPlain(c, c.Create(id, source, context, env), t)
  {
    if id !in c.store {
      var d := NewSession(id, source, context);
      RoutePlain(c.(store := c.store[id := d]), d.CreatedEvent(), t, env);
    }
  }

  lemma ClosePlain(c: Core, id: Id, result: Result, t: Socket, env: Env)
    ensures AddsPlain(c, c.Close(id, result, env), t)
  {
    if id in c.store {
      var c1 := c.(store := c.store - {id});
      RecomputePlain(c1, t, env);
      RoutePlain(c1.RecomputeIfIdle(env), c.store[id].Close(result).ClosedEvent(), t, env);
    }
  }

  lemma CompletePlain(c: Core, id: Id, success: bool, t: Socket, env: Env)
    ensures AddsPlain(c, c.Complete(id, success, env), t)
  {
    if id in c.store {
      var c1 := c.(store := c.store - {id});
      var e := c.store[id].Close(if success then Success else Cancelled).ClosedEvent();
      RoutePlain(c1, e, t, env);
      RecomputePlain(c1.Route(e, env), t, env);
    }
  }

  lemma CloseFlowPlain(c: Core, id: Id, result: Result, error: string, t: Socket, env: Env)
    ensures AddsPlain(c, c.CloseFlow(id, result, error, env), t)
  {
    if id in c.store {
      UpdatePlain(c, c.store[id].SetError(error), t, env);
      ClosePlain(c.UpdateError(id, error, env), id, result, t, env);
      ClosePlain(c, id, result, t, env);
    }
  }

  lemma OpeningPlain(c: Core, op: Op, t: Socket, env: Env)
    requires op.DoCreate? || op.DoOpen? || op.DoReprompt?
    ensures AddsPlain(c, ApplyOne(c, op, env), t)
  {
    hide Core.Route;
    match op
    case DoCreate(id, source, context) => CreatePlain(c, id, source, context, t, env);
    case DoOpen(id, source, context, prompt, clearError) =>
      CreatePlain(c, id, source, context, t, env);
      var c1 := c.Create(id, source, context, env);
      if id in c1.store {
        UpdatePlain(c1, c1.store[id].SetPrompt(prompt, false, clearError), t, env);
      }
    case DoReprompt(id, cur, max, prompt) =>
      var c1 := c.UpdatePinentryRetry(id, cur, max);
      if id in c1.store {
        UpdatePlain(c1, c1.store[id].SetPrompt(prompt, false, false), t, env);
      }
  }

  lemma SessionOpPlain(c: Core, op: Op, t: Socket, env: Env)
    requires IsSessionOp(op)
    ensures AddsPlain(c, ApplyOne(c, op, env), t)
  {
    if op.DoCreate? || op.DoOpen? || op.DoReprompt? {
      OpeningPlain(c, op, t, env);
    } else if op.DoCloseFlow? {
      CloseFlowPlain(c, op.id, op.result, op.error, t, env);
    } else if op.DoClose? {
      ClosePlain(c, op.id, op.result, t, env);
    } else if op.DoComplete? {
      CompletePlain(c, op.id, op.success, t, env);
    } else if op.id in c.store {
      var d := c.store[op.id];
      match op
      case DoPrompt(id, prompt, echo) => UpdatePlain(c, d.SetPrompt(prompt, echo, true), t, env);
      case DoError(id, error) => UpdatePlain(c, d.SetError(error), t, env);
      case DoInfo(id, info) => UpdatePlain(c, d.SetInfo(info), t, env);
    }
  }

  lemma RegisterPlain(c: Core, s: Socket, msg: Registration, t: Socket, env: Env)
    ensures AddsPlain(c, c.Register(s, msg, env), t)
  {
    hide Registry.Recompute;
    var r := c.registry.Register(s, msg, env);
    var q := r.Recompute(env);
    var told := UiRegistered(r.providers[s].id, Some(q.active == Some(s)), r.providers[s].priority);
    var c1 := c.(registry := q, issued := c.issued + {r.providers[s].id});
    var c2 := c1.Send(s, told, env);
    SendPlain(c1, s, [told], t, env);
    SendAllPlain(c2, q.providers.Keys + c.subscribers, UiActive(c2.Info()), t, env);
  }

  lemma HeartbeatPlain(c: Core, s: Socket, t: Socket, env: Env)
    ensures AddsPlain(c, c.Heartbeat(s, env), t)
  {
    if s in c.registry.providers {
      RecomputePlain(c.(registry := c.registry.Heartbeat(s, env)), t, env);
    }
  }

  lemma RemoveProviderPlain(c: Core, s: Socket, t: Socket, env: Env)
    ensures AddsPlain(c, c.RemoveProvider(s, env), t)
  {
    RecomputePlain(c.(registry := c.registry.Remove(s)), t, env);
  }

  lemma UnregisterPlain(c: Core, s: Socket, t: Socket, env: Env)
    ensures AddsPlain(c, c.Unregister(s, env), t)
  {
    if s in c.registry.providers {
      RemoveProviderPlain(c, s, t, env);
      SendPlain(c.RemoveProvider(s, env), s, [Ok(None)], t, env);
    }
  }

  lemma {:induction false} SnapshotPlain(ids: seq<Id>, store: map<Id, SessionData>)
    ensures forall i :: 0 <= i < |Snapshot(ids, store)| ==> Plain(Snapshot(ids, store)[i])
  {
    if ids != [] {
      SnapshotPlain(ids[1..], store);
    }
  }

  lemma SubscribePlain(c: Core, s: Socket, t: Socket, env: Env)
    ensures AddsPlain(c, c.Subscribe(s, env), t)
  {
    SnapshotPlain(env.idOrder(c.store.Keys), c.store);
  }

  lemma ProviderOpPlain(c: Core, op: Op, t: Socket, env: Env)
    requires op.DoRegister? || op.DoHeartbeat? || op.DoUnregister? || op.DoRemoveProvider? || op.DoPrune?
    ensures AddsPlain(c, ApplyOne(c, op, env), t)
  {
    hide Core.Register, Core.Heartbeat, Core.Unregister, Core.RemoveProvider, Core.Recompute;
    match op
    case DoRegister(s, msg) => RegisterPlain(c, s, msg, t, env);
    case DoHeartbeat(s) => HeartbeatPlain(c, s, t, env);
    case DoUnregister(s) => UnregisterPlain(c, s, t, env);
    case DoRemoveProvider(s) => RemoveProviderPlain(c, s, t, env);
    case DoPrune => RecomputePlain(c, t, env);
  }

  lemma OpPlain(c: Core, op: Op, t: Socket, env: Env)
    requires !op.Answer? && (op.Say? ==> Plain(op.m))
    ensures AddsPlain(c, ApplyOne(c, op, env), t)
  {
    hide Core.Register, Core.Heartbeat, Core.Unregister, Core.RemoveProvider, Core.Recompute;
    if IsSessionOp(op) {
      SessionOpPlain(c, op, t, env);
    } else if op.DoRegister? || op.DoHeartbeat? || op.DoUnregister? || op.DoRemoveProvider? || op.DoPrune? {
      ProviderOpPlain(c, op, t, env);
    } else if op.DoSubscribe? {
      SubscribePlain(c, op.s, t, env);
    } else if op.Say? {
      SendPlain(c, op.s, [op.m], t, env);
    }
  }

  lemma OpReplies(c: Core, op: Op, env: Env)
    requires !op.Answer?
    ensures ApplyOne(c, op, env).replies == c.replies
  {
    hide Registry.Recompute, Core.Route, Core.Inbox;
    if IsSessionOp(op) {
      SessionOpFrame(c, op, env);
    }
  }

  ghost predicate KeepsQuiet(ops: seq<Op>) {
    forall i :: 0 <= i < |ops| ==> !ops[i].Answer? && (ops[i].Say? ==> Plain(ops[i].m))
  }

  lemma OpKeepsSecrets(c: Core, op: Op, t: Socket, env: Env)
    requires !op.Answer? && (op.Say? ==> Plain(op.m))
    ensures Secrets(ApplyOne(c, op, env).Inbox(t)) == Secrets(c.Inbox(t)) && ApplyOne(c, op, env).replies == c.replies
  {
    OpReplies(c, op, env);
    OpPlain(c, op, t, env);
    var before, after := c.Inbox(t), ApplyOne(c, op, env).Inbox(t);
    PlainHoldsNoSecret(after, |before|);
    assert after[..|before|] == before;
  }

  lemma {:induction false} OpsPlain(c: Core, ops: seq<Op>, t: Socket, env: Env)
    requires KeepsQuiet(ops)
    ensures Secrets(Apply(c, ops, env).Inbox(t)) == Secrets(c.Inbox(t)) && Apply(c, ops, env).replies == c.replies
    decreases |ops|
  {
    if ops != [] {
      OpKeepsSecrets(c, ops[0], t, env);
      OpsPlain(ApplyOne(c, ops[0], env), ops[1..], t, env);
    }
  }

  /** Calls around one answer: only the answer can carry a secret, and only to its addressee. */
  lemma OneAnswer(c: Core, before: seq<Op>, s: Socket, m: Msg, after: seq<Op>, t: Socket, env: Env)
    requires KeepsQuiet(before) && KeepsQuiet(after)
    ensures var c' := Apply(c, before + [Answer(s, m)] + after, env);
            && Secrets(c'.Inbox(t)) == Secrets(c.Inbox(t)) + (if t == s && s in env.connected && Secret(m) then [m] else [])
            && c'.replies == c.replies + [Reply(s, m)]
  {
    hide Apply, ApplyOne, Secrets, KeepsQuiet;
    ApplyConcat(c, before + [Answer(s, m)], after, env);
    ApplyConcat(c, before, [Answer(s, m)], env);
    var c1 := Apply(c, before, env);
    ApplySingle(c1, Answer(s, m), env);
    AnswerSecrets(c1, s, m, t, env);
    OpsPlain(c, before, t, env);
    OpsPlain(ApplyOne(c1, Answer(s, m), env), after, t, env);
  }

  lemma AnswerSecrets(c: Core, s: Socket, m: Msg, t: Socket, env: Env)
    ensures var c' := ApplyOne(c, Answer(s, m), env);
            && Secrets(c'.Inbox(t)) == Secrets(c.Inbox(t)) + (if t == s && s in env.connected && Secret(m) then [m] else [])
            && c'.replies == c.replies + [Reply(s, m)]
  {
    var c' := ApplyOne(c, Answer(s, m), env);
    if t == s && s in env.connected {
      assert c'.Inbox(t) == c.Inbox(t) + [m];
      assert c'.Inbox(t)[..|c'.Inbox(t)| - 1] == c.Inbox(t);
    }
  }

  /** The answer that a step releases, if any, and the socket it is offered to. */
  function Released(d: Daemon, input: Input): Option<Reply> {
    if !input.RespondInput? || !d.core.registry.Authorizes(input.s) then None
    else if input.id in d.keyring then Some(Reply(d.keyring[input.id].socket, KeyringReply(input.id, Some(input.response))))
    else if input.id in d.pinentry.pending then
      var r := d.pinentry.pending[input.id];
      Some(Reply(r.socket, PinentryReply(input.id, if r.confirmOnly then Confirmed else Password(input.response))))
    else None
  }

  lemma SingleCallsAnswerNothing(d: Daemon, input: Input, env: Env)
    requires SingleCall(input)
    ensures KeepsQuiet(EffectOf(d, input, env).ops)
  {
  }

  lemma OthersAnswerNothing(d: Daemon, input: Input, env: Env)
    requires !input.RespondInput? && !input.CancelInput?
    ensures KeepsQuiet(EffectOf(d, input, env).ops)
  {
    if input.DisconnectInput? {
      DisconnectCalls(d, input.s, env);
    } else {
      hide EffectOf;
      if SingleCall(input) {
        SingleCallsAnswerNothing(d, input, env);
      } else {
        HandlersCallUsually(d, input, env);
      }
    }
  }

  /** What a cancellation offers to the peer whose request it cancels. */
  function Declined(d: Daemon, s: Socket, id: Id): seq<Reply> {
    if !d.core.registry.Authorizes(s) then []
    else if id in d.keyring then [Reply(d.keyring[id].socket, KeyringReply(id, None))]
    else if id in d.pinentry.pending then [Reply(d.pinentry.pending[id].socket, PinentryReply(id, AgentCore.Declined))]
    else []
  }

  lemma CancelAnswersNothing(d: Daemon, s: Socket, id: Id)
    requires Declined(d, s, id) == []
    ensures KeepsQuiet(Cancel(d, s, id).ops)
  {
  }

  /** Answers that decline carry no secret. */
  lemma CancelReleasesNothing(d: Daemon, s: Socket, id: Id, t: Socket, env: Env)
    ensures var c' := Apply(d.core, Cancel(d, s, id).ops, env);
            Secrets(c'.Inbox(t)) == Secrets(d.core.Inbox(t)) && c'.replies == d.core.replies + Declined(d, s, id)
  {
    var ops, told := Cancel(d, s, id).ops, Declined(d, s, id);
    if told == [] {
      CancelAnswersNothing(d, s, id);
      OpsPlain(d.core, ops, t, env);
    } else {
      var before := [if id in d.keyring then DoClose(id, Cancelled) else DoCloseFlow(id, Cancelled, "")];
      assert ops == before + [Answer(told[0].socket, told[0].msg)] + [Say(s, Ok(None))];
      OneAnswer(d.core, before, told[0].socket, told[0].msg, [Say(s, Ok(None))], t, env);
    }
  }

  /** Over one step, the secrets in any inbox grow by exactly the answer released to that socket: an answer given by
      an authorised UI, sent to the socket whose own request is pending under that id. */
  lemma SecretsGoWhereTheyBelong(d: Daemon, input: Input, t: Socket, env: Env)
    ensures var d' := Handle(d, input, env);
            var r := Released(d, input);
            Secrets(d'.core.Inbox(t)) ==
            Secrets(d.core.Inbox(t)) + if r.Some? && r.value.socket == t && t in env.connected then [r.value.msg] else []
  {
    if input.CancelInput? {
      CancelReleasesNothing(d, input.s, input.id, t, env);
    } else if input.RespondInput? {
      RespondReleases(d, input.s, input.id, input.response, t, env);
    } else {
      OthersAnswerNothing(d, input, env);
      OpsPlain(d.core, EffectOf(d, input, env).ops, t, env);
    }
  }

  lemma RespondReleases(d: Daemon, s: Socket, id: Id, response: string, t: Socket, env: Env)
    ensures var c' := Apply(d.core, Respond(d, s, id, response).ops, env);
            var r := Released(d, RespondInput(s, id, response));
            && Secrets(c'.Inbox(t)) ==
               Secrets(d.core.Inbox(t)) + (if r.Some? && r.value.socket == t && t in env.connected then [r.value.msg] else [])
            && c'.replies == d.core.replies + if r.Some? then [r.value] else []
  {
    hide Apply, ApplyOne, Registry.Authorizes;
    var ops, r := Respond(d, s, id, response).ops, Released(d, RespondInput(s, id, response));
    if r.None? {
      OpsPlain(d.core, ops, t, env);
    } else {
      var before := if id in d.keyring then [DoClose(id, Success)] else [];
      assert ops == before + [Answer(r.value.socket, r.value.msg)] + [Say(s, Ok(None))];
      OneAnswer(d.core, before, r.value.socket, r.value.msg, [Say(s, Ok(None))], t, env);
    }
  }

  /** Releasing an answer consumes the pending request; the secret goes nowhere else, in particular not to polkit. */
  lemma ReleaseConsumes(d: Daemon, input: Input, env: Env)
    requires Released(d, input).Some?
    ensures var d' := Handle(d, input, env);
            && d'.polkit == d.polkit
            && (if input.id in d.keyring then d'.keyring == d.keyring - {input.id} && d'.pinentry == d.pinentry
                else d'.keyring == d.keyring && d'.pinentry.pending == d.pinentry.pending - {input.id} && input.id in d'.pinentry.awaiting)
  {
  }

  /** The answer carries the user's response, word for word, to the socket whose request is pending under that id. */
  lemma AnswerReachesRequester(d: Daemon, s: Socket, id: Id, response: string, t: Socket, env: Env)
    requires d.core.registry.Authorizes(s) && (id in d.keyring || id in d.pinentry.pending)
    ensures var c' := Handle(d, RespondInput(s, id, response), env).core;
            if id in d.keyring then
              var requester := d.keyring[id].socket;
              && c'.replies == d.core.replies + [Reply(requester, KeyringReply(id, Some(response)))]
              && Secrets(c'.Inbox(t)) ==
                 Secrets(d.core.Inbox(t)) + if t == requester && t in env.connected then [KeyringReply(id, Some(response))] else []
            else
              var r := d.pinentry.pending[id];
              var answer := PinentryReply(id, if r.confirmOnly then Confirmed else Password(response));
              && c'.replies == d.core.replies + [Reply(r.socket, answer)]
              && Secrets(c'.Inbox(t)) == Secrets(d.core.Inbox(t)) + if t == r.socket && t in env.connected then [answer] else []
  {
    hide Apply, Respond, Registry.Authorizes;
    RespondReleases(d, s, id, response, t, env);
  }

  /** An accepted request is recorded with the socket it came on, the process behind it, and what it asks for. */
  lemma KeyringRequestRecorded(d: Daemon, s: Socket, pid: Pid, msg: KeyringMessage, env: Env)
    requires KeyringCookie(msg, env) !in d.core.store
    ensures var id := if msg.cookie == "" then env.uuid else msg.cookie;
            Handle(d, KeyringInput(s, pid, msg), env).keyring ==
            d.keyring[id := KeyringRequest(id, s, pid, if msg.title.Some? then msg.title.value else msg.prompt, msg.message, msg.choice, msg.flags)]
  {
    hide Apply;
  }

  lemma PinentryRequestRecorded(d: Daemon, s: Socket, pid: Pid, msg: PinentryMessage, env: Env)
    requires !d.pinentry.OwnedByOther(ParsePinentry(msg, s, pid, env).cookie, pid)
    ensures var id := if msg.cookie == "" then env.uuid else msg.cookie;
            var p' := Handle(d, PinentryInput(s, pid, msg), env).pinentry;
            && p'.pending ==
               d.pinentry.pending[id := PinentryRequest(id, s, pid, if msg.prompt == "" then "Enter passphrase:" else msg.prompt,
                                                        msg.description, msg.attempts, msg.error, msg.keyinfo, msg.repeat, msg.confirmOnly)]
            && p'.owners == d.pinentry.owners[id := pid]
            && p'.awaiting == d.pinentry.awaiting - {id} && p'.reported == d.pinentry.reported - {id}
            && p'.keyinfos == if msg.keyinfo == "" then d.pinentry.keyinfos else d.pinentry.keyinfos[id := msg.keyinfo]
  {
    hide Apply, PinTables.Pended, PinTables.ResolveRetry;
    var r := ParsePinentry(msg, s, pid, env);
    PendedTables(d.pinentry, r);
  }

  lemma PendedTables(p: PinTables, r: PinentryRequest)
    ensures var t := p.Pended(r);
            && t.pending == p.pending[r.cookie := r] && t.owners == p.owners[r.cookie := r.pid]
            && t.awaiting == p.awaiting - {r.cookie} && t.reported == p.reported - {r.cookie}
            && t.keyinfos == if r.keyinfo == "" then p.keyinfos else p.keyinfos[r.cookie := r.keyinfo]
  {
    ClaimResolved(p, r);
    hide PinTables.ResolveRetry;
  }

  // ---- counting over runs

  function SecretsFor(replies: seq<Reply>, id: Id): nat {
    if replies == [] then 0
    else
      var last := replies[|replies| - 1].msg;
      SecretsFor(replies[..|replies| - 1], id) + if Secret(last) && last.id == id then 1 else 0
  }

  /** The request is accepted under `id`, and pending when the step is over. */
  predicate Accepts(d: Daemon, input: Input, env: Env, id: Id) {
    match input
    case KeyringInput(_, _, msg) => KeyringCookie(msg, env) == id && id !in d.core.store
    case PinentryInput(s, pid, msg) => ParsePinentry(msg, s, pid, env).cookie == id && !d.pinentry.OwnedByOther(id, pid)
    case _ => false
  }

  function Accepted(steps: seq<Step>, id: Id): nat {
    if steps == [] then 0
    else
      var n := |steps| - 1;
      Accepted(steps[..n], id) + if Accepts(Run(INITIAL, steps[..n]), steps[n].input, steps[n].env, id) then 1 else 0
  }

  function PendingCount(d: Daemon, id: Id): nat {
    (if id in d.keyring then 1 else 0) + if id in d.pinentry.pending then 1 else 0
  }

  lemma {:induction false} ForgetAllPending(p: PinTables, ids: seq<Id>)
    ensures p.ForgetAll(ids).pending.Keys <= p.pending.Keys
    decreases |ids|
  {
    if ids != [] {
      ForgetAllPending(p.Forget(ids[0]), ids[1..]);
    }
  }

  /** The pending pinentry requests of a step that is neither a request nor an answer only shrink. */
  lemma PinentryPendingShrinks(d: Daemon, input: Input, env: Env)
    requires !input.PinentryInput?
    ensures EffectOf(d, input, env).pinentry.pending.Keys <= d.pinentry.pending.Keys
  {
    if input.DisconnectInput? {
      ForgetAllPending(d.pinentry, Only(env.idOrder(d.pinentry.pending.Keys), PinentryOwned(d.pinentry, input.s)));
    }
  }

  lemma KeyringPendingShrinks(d: Daemon, input: Input, env: Env)
    requires !input.KeyringInput?
    ensures EffectOf(d, input, env).keyring.Keys <= d.keyring.Keys
  {
  }

  /** Requests become pending only by being accepted. */
  lemma PendingGrowsByAcceptance(d: Daemon, input: Input, env: Env, id: Id)
    ensures var e := EffectOf(d, input, env);
            && (id in e.keyring ==> id in d.keyring || (input.KeyringInput? && Accepts(d, input, env, id)))
            && (id in e.pinentry.pending ==> id in d.pinentry.pending || (input.PinentryInput? && Accepts(d, input, env, id)))
  {
    if !input.PinentryInput? {
      PinentryPendingShrinks(d, input, env);
    }
    if !input.KeyringInput? {
      KeyringPendingShrinks(d, input, env);
    }
  }

  lemma SecretsForStep(replies: seq<Reply>, r: Reply, id: Id)
    ensures SecretsFor(replies + [r], id) == SecretsFor(replies, id) + if Secret(r.msg) && r.msg.id == id then 1 else 0
  {
    assert (replies + [r])[..|replies|] == replies;
  }

  /** Everything a step offers to requesters, secret or not. */
  function Offered(d: Daemon, input: Input): seq<Reply> {
    if input.CancelInput? then Declined(d, input.s, input.id)
    else if Released(d, input).Some? then [Released(d, input).value]
    else []
  }

  lemma OffersAreLogged(d: Daemon, input: Input, env: Env)
    ensures Handle(d, input, env).core.replies == d.core.replies + Offered(d, input)
  {
    if input.CancelInput? {
      CancelReleasesNothing(d, input.s, input.id, 0, env);
    } else if input.RespondInput? {
      RespondReleases(d, input.s, input.id, input.response, 0, env);
    } else {
      OthersAnswerNothing(d, input, env);
      OpsPlain(d.core, EffectOf(d, input, env).ops, 0, env);
    }
  }

  lemma RepliesStep(d: Daemon, input: Input, replies: seq<Reply>, id: Id)
    ensures SecretsFor(replies + Offered(d, input), id) ==
            SecretsFor(replies, id) + if Released(d, input).Some? && Released(d, input).value.msg.id == id then 1 else 0
  {
    var o := Offered(d, input);
    if o == [] {
      assert replies + o == replies;
    } else {
      assert o == [o[0]];
      SecretsForStep(replies, o[0], id);
    }
  }

  /** Over any run, an id receives at most one secret per request accepted for it. */
  lemma {:induction false} SecretsNeverExceedRequests(steps: seq<Step>, id: Id)
    ensures var d := Run(INITIAL, steps); SecretsFor(d.core.replies, id) + PendingCount(d, id) <= Accepted(steps, id)
  {
    if steps != [] {
      var n := |steps| - 1;
      var d := Run(INITIAL, steps[..n]);
      SecretsNeverExceedRequests(steps[..n], id);
      OffersAreLogged(d, steps[n].input, steps[n].env);
      RepliesStep(d, steps[n].input, d.core.replies, id);
      PendingGrowsByAcceptance(d, steps[n].input, steps[n].env, id);
      if Released(d, steps[n].input).Some? {
        ReleaseConsumes(d, steps[n].input, steps[n].env);
      }
    }
  }
}
