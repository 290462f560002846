/** The keyring and pinentry tables after every input, from the state before. */
module ManagerTables {
  import opened Base
  import opened Sessions
  import opened Environments
  import opened ProviderRegistries
  import opened AgentCore
  import opened KeyringManagers
  import opened PinentryManagers
  import opened PolkitListeners
  import opened Daemons
  import opened TableAgreement
  import opened SecretRouting

  /** The pinentry tables, timers aside. */
  datatype Flows = Flows(
    pending: map<Id, PinentryRequest>, awaiting: map<Id, PinentryRequest>, owners: map<Id, Pid>,
    keyinfos: map<Id, Id>, reported: set<Id>, retryInfo: map<Id, (int, int)>)
  {
    /** These flows are over: nothing of them is left, and the counts of their keys are forgotten. */
    function Over(ids: set<Id>): Flows {
      Flows(pending - ids, awaiting - ids, owners - ids, keyinfos - ids, reported - ids,
            retryInfo - set id | id in ids && id in keyinfos && keyinfos[id] != "" :: keyinfos[id])
    }
  }

  function FlowsOf(p: PinTables): Flows {
    Flows(p.pending, map id | id in p.awaiting :: p.awaiting[id].request, p.owners, p.keyinfos, p.reported, p.retryInfo)
  }

  function FlowsNext(d: Daemon, input: Input, env: Env): Flows {
    var f := FlowsOf(d.pinentry);
    match input
    case PinentryInput(s, pid, msg) =>
      var id := if msg.cookie == "" then env.uuid else msg.cookie;
      var request := PinentryRequest(id, s, pid, if msg.prompt == "" then "Enter passphrase:" else msg.prompt,
                                     msg.description, msg.attempts, msg.error, msg.keyinfo, msg.repeat, msg.confirmOnly);
      if id in f.owners && f.owners[id] != pid then f
      else Flows(f.pending[id := request], f.awaiting - {id}, f.owners[id := pid],
                 if msg.keyinfo == "" then f.keyinfos else f.keyinfos[id := msg.keyinfo],
                 f.reported - {id},
                 if msg.keyinfo == "" then f.retryInfo
                 else if msg.attempts.Some? then f.retryInfo[msg.keyinfo := msg.attempts.value]
                 else if msg.keyinfo in f.retryInfo then f.retryInfo
                 else f.retryInfo[msg.keyinfo := (0, 0)])
    case RespondInput(s, id, _) =>
      if d.core.registry.Authorizes(s) && id !in d.keyring && id in f.pending
      then f.(pending := f.pending - {id}, awaiting := f.awaiting[id := f.pending[id]])
      else f
    case ResultInput(_, pid, id, word, _) =>
      if id == "" || (id in f.owners && f.owners[id] != pid) || !IsPinentry(d.core.store, id) || word.SaysOther? then f
      else if word.SaysRetry? then f.(awaiting := f.awaiting - {id}, reported := f.reported + {id})
      else f.Over({id})
    case CancelInput(s, id) =>
      if d.core.registry.Authorizes(s) && id !in d.keyring && (id in f.pending || id in f.awaiting || IsPinentry(d.core.store, id))
      then f.Over({id})
      else f
    case DisconnectInput(s) => f.Over(set id | id in f.pending && f.pending[id].socket == s)
    case OutcomeTimer(timer) => if timer in d.pinentry.timers then f.Over({d.pinentry.timers[timer]}) else f
    case _ => f
  }

  // ---- ending flows

  lemma CleanedUp(p: PinTables, id: Id)
    ensures FlowsOf(p.CleanupAwaiting(id)) == FlowsOf(p).(awaiting := FlowsOf(p).awaiting - {id})
  {
  }

  lemma ForgetIsOver(p: PinTables, id: Id)
    ensures FlowsOf(p.Forget(id)) == FlowsOf(p).Over({id})
  {
    CleanedUp(p, id);
    var keys := set i | i in {id} && i in p.keyinfos && p.keyinfos[i] != "" :: p.keyinfos[i];
    assert id in p.keyinfos && p.keyinfos[id] != "" ==> p.keyinfos[id] in keys;
    assert keys == if id in p.keyinfos && p.keyinfos[id] != "" then {p.keyinfos[id]} else {};
  }

  lemma OverTwice(f: Flows, a: set<Id>, b: set<Id>)
    ensures f.Over(a).Over(b) == f.Over(a + b)
  {
    var g := f.keyinfos - a;
    var ka := set id | id in a && id in f.keyinfos && f.keyinfos[id] != "" :: f.keyinfos[id];
    var kb := set id | id in b && id in g && g[id] != "" :: g[id];
    var kab := set id | id in a + b && id in f.keyinfos && f.keyinfos[id] != "" :: f.keyinfos[id];
    assert ka + kb == kab by {
      forall k | k in kab ensures k in ka + kb {
        var id :| id in a + b && id in f.keyinfos && f.keyinfos[id] != "" && f.keyinfos[id] == k;
        if id !in a {
          assert id in g && g[id] == k;
        }
      }
    }
    assert f.retryInfo - ka - kb == f.retryInfo - kab;
    assert f.pending - a - b == f.pending - (a + b);
    assert f.awaiting - a - b == f.awaiting - (a + b);
    assert f.owners - a - b == f.owners - (a + b);
    assert f.keyinfos - a - b == f.keyinfos - (a + b);
    assert f.reported - a - b == f.reported - (a + b);
  }

  lemma OverNone(f: Flows)
    ensures f.Over({}) == f
  {
    assert f.pending - {} == f.pending && f.awaiting - {} == f.awaiting && f.owners - {} == f.owners;
    assert f.keyinfos - {} == f.keyinfos && f.retryInfo - {} == f.retryInfo;
  }

  lemma {:induction false} ForgetAllIsOver(p: PinTables, ids: seq<Id>)
    ensures FlowsOf(p.ForgetAll(ids)) == FlowsOf(p).Over(set id | id in ids)
    decreases |ids|
  {
    hide Flows.Over, FlowsOf, PinTables.Forget;
    var all := set id | id in ids;
    if ids == [] {
      assert all == {};
      OverNone(FlowsOf(p));
    } else {
      ForgetIsOver(p, ids[0]);
      ForgetAllIsOver(p.Forget(ids[0]), ids[1..]);
      var rest := set id | id in ids[1..];
      OverTwice(FlowsOf(p), {ids[0]}, rest);
      assert ids == [ids[0]] + ids[1..];
      assert all == {ids[0]} + rest;
    }
  }

  // ---- the other steps

  lemma RequestFlows(d: Daemon, s: Socket, pid: Pid, msg: PinentryMessage, env: Env)
    ensures FlowsOf(Handle(d, PinentryInput(s, pid, msg), env).pinentry) == FlowsNext(d, PinentryInput(s, pid, msg), env)
  {
    hide Apply, PinTables.Pended;
    var r := ParsePinentry(msg, s, pid, env);
    if !d.pinentry.OwnedByOther(r.cookie, pid) {
      PinentryRequestRecorded(d, s, pid, msg, env);
      PendedFlows(d.pinentry, r);
    }
  }

  lemma PendedFlows(p: PinTables, r: PinentryRequest)
    ensures FlowsOf(p.Pended(r)).awaiting == FlowsOf(p).awaiting - {r.cookie}
    ensures p.Pended(r).retryInfo ==
            if r.keyinfo == "" then p.retryInfo
            else if r.attempts.Some? then p.retryInfo[r.keyinfo := r.attempts.value]
            else if r.keyinfo in p.retryInfo then p.retryInfo
            else p.retryInfo[r.keyinfo := (0, 0)]
  {
    var t := p.Claimed(r).ResolveRetry(r).0;
    ClaimResolved(p, r);
    Remembered(p, r);
    hide PinTables.ResolveRetry;
    assert p.Pended(r).retryInfo == t.retryInfo;
    CleanedUp(t, r.cookie);
  }

  lemma Remembered(p: PinTables, r: PinentryRequest)
    ensures p.Claimed(r).ResolveRetry(r).0.retryInfo ==
            if r.keyinfo == "" then p.retryInfo
            else if r.attempts.Some? then p.retryInfo[r.keyinfo := r.attempts.value]
            else if r.keyinfo in p.retryInfo then p.retryInfo
            else p.retryInfo[r.keyinfo := (0, 0)]
  {
  }

  lemma AnswerFlows(d: Daemon, s: Socket, id: Id, response: string)
    ensures FlowsOf(Respond(d, s, id, response).pinentry) ==
            if d.core.registry.Authorizes(s) && id !in d.keyring && id in d.pinentry.pending
            then FlowsOf(d.pinentry).(pending := d.pinentry.pending - {id}, awaiting := FlowsOf(d.pinentry).awaiting[id := d.pinentry.pending[id]])
            else FlowsOf(d.pinentry)
  {
    RespondTables(d, s, id, response);
    hide Respond;
  }

  lemma ResultFlows(d: Daemon, s: Socket, pid: Pid, id: Id, word: ResultWord, error: string, env: Env)
    ensures FlowsOf(EffectOf(d, ResultInput(s, pid, id, word, error), env).pinentry) == FlowsNext(d, ResultInput(s, pid, id, word, error), env)
  {
    hide PinTables.Forget, PinTables.CleanupAwaiting, Flows.Over;
    ForgetIsOver(d.pinentry, id);
    CleanedUp(d.pinentry, id);
  }

  lemma CancelFlows(d: Daemon, s: Socket, id: Id, env: Env)
    ensures FlowsOf(Cancel(d, s, id).pinentry) == FlowsNext(d, CancelInput(s, id), env)
  {
    hide PinTables.Forget, Flows.Over, PolkitTables.CancelPending;
    ForgetIsOver(d.pinentry, id);
  }

  lemma DisconnectFlows(d: Daemon, s: Socket, env: Env)
    requires env.Valid()
    ensures FlowsOf(EffectOf(d, DisconnectInput(s), env).pinentry) == FlowsNext(d, DisconnectInput(s), env)
  {
    var ids := Only(env.idOrder(d.pinentry.pending.Keys), PinentryOwned(d.pinentry, s));
    CleanupIds(d.pinentry, s, env);
    ForgetAllIsOver(d.pinentry, ids);
    hide Flows.Over, PinTables.ForgetAll, FlowsOf, KeyringCleanup, Env.Valid;
    assert (set id | id in ids) == set id | id in d.pinentry.pending && d.pinentry.pending[id].socket == s;
    assert FlowsOf(d.pinentry).pending == d.pinentry.pending by { PendingOf(d.pinentry); }
  }

  lemma PendingOf(p: PinTables)
    ensures FlowsOf(p).pending == p.pending
  {
  }

  lemma TimerFlows(d: Daemon, timer: nat, env: Env)
    ensures FlowsOf(EffectOf(d, OutcomeTimer(timer), env).pinentry) == FlowsNext(d, OutcomeTimer(timer), env)
  {
    hide PinTables.Forget, Flows.Over, FlowsOf;
    if timer in d.pinentry.timers {
      ForgetIsOver(d.pinentry, d.pinentry.timers[timer]);
    }
  }

  /** Every input, exactly: which pinentry requests are pending and await their outcome, who owns them, which were reported
      for retry, and which retry counts are remembered. */
  lemma StepFlows(d: Daemon, input: Input, env: Env)
    requires env.Valid()
    ensures FlowsOf(Handle(d, input, env).pinentry) == FlowsNext(d, input, env)
  {
    hide Env.Valid, Apply, FlowsOf, Respond, Daemons.Cancel, Disconnect, PinentryHandleRequest, PinentryHandleResult, KeyringHandleRequest;
    if input.PinentryInput? || input.ResultInput? || input.OutcomeTimer? || input.DisconnectInput? {
      hide FlowsNext, EffectOf;
      match input
      case PinentryInput(s, pid, msg) => RequestFlows(d, s, pid, msg, env);
      case ResultInput(s, pid, id, word, error) => ResultFlows(d, s, pid, id, word, error, env);
      case OutcomeTimer(timer) => TimerFlows(d, timer, env);
      case DisconnectInput(s) => DisconnectFlows(d, s, env);
    } else if input.RespondInput? {
      AnswerStepFlows(d, input.s, input.id, input.response, env);
    } else if input.CancelInput? {
      CancelFlows(d, input.s, input.id, env);
    }
  }

  lemma AnswerStepFlows(d: Daemon, s: Socket, id: Id, response: string, env: Env)
    ensures FlowsOf(Respond(d, s, id, response).pinentry) == FlowsNext(d, RespondInput(s, id, response), env)
  {
    hide Respond;
    AnswerFlows(d, s, id, response);
  }

  // ---- the keyring table

  function KeyringNext(d: Daemon, input: Input, env: Env): KeyringTable {
    match input
    case KeyringInput(s, pid, msg) =>
      var id := if msg.cookie == "" then env.uuid else msg.cookie;
      if id in d.core.store then d.keyring - {id}
      else d.keyring[id := KeyringRequest(id, s, pid, if msg.title.Some? then msg.title.value else msg.prompt, msg.message, msg.choice, msg.flags)]
    case RespondInput(s, id, _) => if d.core.registry.Authorizes(s) then d.keyring - {id} else d.keyring
    case CancelInput(s, id) => if d.core.registry.Authorizes(s) then d.keyring - {id} else d.keyring
    case DisconnectInput(s) => map id | id in d.keyring && d.keyring[id].socket != s :: d.keyring[id]
    case _ => d.keyring
  }

  /** Every input, exactly: which keyring requests are pending, and with what. */
  lemma StepKeyring(d: Daemon, input: Input, env: Env)
    ensures Handle(d, input, env).keyring == KeyringNext(d, input, env)
  {
    hide Apply, PinentryHandleRequest, PinentryHandleResult, PinTables.Forget, PinTables.Answered, PinentryCleanup, PolkitTables.CancelPending,
      PolkitTables.OnCompleted, PolkitTables.CancelEach, PolkitTables.Initiate, KeyringContext, Registry.Authorizes;
  }
}
