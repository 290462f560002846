/** The pinentry manager object: tables of flows updated in place, and calls to the agent. */
module PinentryHandlers {
  import opened Base
  import opened Sessions
  import opened Environments
  import opened AgentCore
  import opened CoreInvariants
  import opened PinentryManagers
  import opened Agents

  // ---- how a request's agent calls divide

  function RetriedOps(t: PinTables, r: PinentryRequest): seq<Op> {
    if r.cookie in t.awaiting then [DoError(r.cookie, OrFailed(r.error))] else []
  }

  function PromptedOp(exists_: bool, r: PinentryRequest, cur: int, max: int, env: Env): Op {
    if exists_ then DoReprompt(r.cookie, cur, max, r.prompt)
    else DoOpen(r.cookie, Pinentry, PinentryContext(r, cur, max, env), r.prompt, false)
  }

  function ComplainedOps(t: PinTables, r: PinentryRequest): seq<Op> {
    if r.error != "" && r.cookie !in t.reported then [DoError(r.cookie, r.error)] else []
  }

  lemma RequestOps(t: PinTables, store: map<Id, SessionData>, msg: PinentryMessage, s: Socket, pid: Pid, env: Env)
    ensures var r := ParsePinentry(msg, s, pid, env);
            var (t', ops) := PinentryHandleRequest(t, store, msg, s, pid, env);
            var (_, cur, max) := t.ResolveRetry(r);
            if t.OwnedByOther(r.cookie, pid) then t' == t && ops == []
            else t' == t.Pended(r) && ops == RetriedOps(t, r) + [PromptedOp(r.cookie in store, r, cur, max, env)] + ComplainedOps(t, r)
  {
  }

  /** Three groups of calls, one after the other. */
  lemma ApplyThree(c: Core, xs: seq<Op>, op: Op, zs: seq<Op>, env: Env)
    ensures Apply(c, xs + [op] + zs, env) == Apply(ApplyOne(Apply(c, xs, env), op, env), zs, env)
  {
    ApplyConcat(c, xs + [op], zs, env);
    ApplyConcat(c, xs, [op], env);
    ApplySingle(Apply(c, xs, env), op, env);
  }

  lemma RetriedKeepsStore(c: Core, t: PinTables, r: PinentryRequest, env: Env)
    requires forall id :: id in c.store ==> c.store[id].id == id
    ensures Apply(c, RetriedOps(t, r), env).store.Keys == c.store.Keys
  {
    ApplySingle(c, DoError(r.cookie, OrFailed(r.error)), env);
    if r.cookie in c.store {
      var d := c.store[r.cookie].SetError(OrFailed(r.error));
      RouteChanges(c.(store := c.store[d.id := d]), d.UpdatedEvent(), env);
    }
  }

  function Concluded(t: PinTables, id: Id, word: ResultWord): PinTables {
    match word
    case SaysOther => t
    case SaysRetry =>
      var t1 := t.CleanupAwaiting(id);
      t1.(reported := t1.reported + {id})
    case _ => t.Forget(id)
  }

  function ConcludedOps(id: Id, word: ResultWord, error: string): seq<Op> {
    match word
    case SaysSuccess => [DoCloseFlow(id, Success, "")]
    case SaysRetry => [DoError(id, OrFailed(error))]
    case SaysCancelled => [DoCloseFlow(id, Cancelled, "")]
    case SaysError => [DoCloseFlow(id, Error, OrFailed(error))]
    case SaysOther => []
  }

  lemma DisconnectNext(c: Core, ids: seq<Id>, env: Env)
    requires ids != []
    ensures Apply(c, Disconnections(ids), env) == Apply(c.CloseFlow(ids[0], Cancelled, GONE, env), Disconnections(ids[1..]), env)
  {
    assert Disconnections(ids)[1..] == Disconnections(ids[1..]);
  }

  const ALREADY_ANSWERED := "Session is already awaiting terminal result"

  lemma ApplyRetried(c: Core, t: PinTables, r: PinentryRequest, env: Env)
    ensures Apply(c, RetriedOps(t, r), env) == if r.cookie in t.awaiting then c.UpdateError(r.cookie, OrFailed(r.error), env) else c
  {
    ApplySingle(c, DoError(r.cookie, OrFailed(r.error)), env);
  }

  class PinentryManager {
    var pending: map<Id, PinentryRequest>
    var awaiting: map<Id, Awaiting>
    var retryInfo: map<Id, (int, int)>
    var owners: map<Id, Pid>
    var keyinfos: map<Id, Id>
    var reported: set<Id>
    var timers: map<nat, Id>
    var nextTimer: nat

    function Data(): PinTables
      reads this
    {
      PinTables(pending, awaiting, retryInfo, owners, keyinfos, reported, timers, nextTimer)
    }

    constructor ()
      ensures Data() == NO_FLOWS
    {
      pending, awaiting, retryInfo, owners, keyinfos, reported, timers, nextTimer := map[], map[], map[], map[], map[], {}, map[], 0;
    }

    // -- the tables alone

    method CleanupAwaiting(id: Id)
      modifies this
      ensures Data() == old(Data()).CleanupAwaiting(id)
    {
      if id !in awaiting {
        return;
      }
      timers := timers - {awaiting[id].timer};
      awaiting := awaiting - {id};
    }

    method ResolveRetryInfo(r: PinentryRequest) returns (curRetry: int, maxRetries: int)
      modifies this
      ensures (Data(), curRetry, maxRetries) == old(Data()).ResolveRetry(r)
    {
      curRetry, maxRetries := 0, 3;
      if r.attempts.Some? {
        curRetry, maxRetries := r.attempts.value.0, r.attempts.value.1;
      }
      if r.keyinfo != "" {
        var info := if r.keyinfo in retryInfo then retryInfo[r.keyinfo] else (0, 0);
        if r.attempts.Some? {
          info := (curRetry, maxRetries);
        } else {
          curRetry := info.0;
          maxRetries := if info.1 > 0 then info.1 else 3;
        }
        retryInfo := retryInfo[r.keyinfo := info];
      }
      if curRetry < 0 {
        curRetry := 0;
      }
      if maxRetries <= 0 {
        maxRetries := 3;
      }
    }

    /** An answer to anything but a pending request is turned down and changes nothing. */
    method HandleResponse(id: Id, response: string) returns (reply: Msg)
      modifies this
      ensures var t := old(Data());
              if id in t.pending then
                reply == PinentryReply(id, if t.pending[id].confirmOnly then Confirmed else Password(response)) && Data() == t.Answered(id)
              else reply == Failure(if id in t.awaiting then ALREADY_ANSWERED else "Unknown session") && Data() == t
    {
      if id !in pending {
        return Failure(if id in awaiting then ALREADY_ANSWERED else "Unknown session");
      }
      var request := pending[id];
      pending := pending - {id};
      reply := PinentryReply(id, if request.confirmOnly then Confirmed else Password(response));
      CleanupAwaiting(id);
      var timer := nextTimer;
      nextTimer := nextTimer + 1;
      awaiting := awaiting[id := Awaiting(request, timer)];
      timers := timers[timer := id];
    }

    predicate ValidResultOwner(id: Id, pid: Pid)
      reads this
      ensures ValidResultOwner(id, pid) == !Data().OwnedByOther(id, pid)
    {
      id !in owners || owners[id] == pid
    }

    /** The tables' part of `closeFlow`. */
    method Forget(id: Id)
      modifies this
      ensures Data() == old(Data()).Forget(id)
    {
      pending := pending - {id};
      CleanupAwaiting(id);
      owners := owners - {id};
      reported := reported - {id};
      var keyinfo := if id in keyinfos then keyinfos[id] else "";
      keyinfos := keyinfos - {id};
      if keyinfo != "" {
        retryInfo := retryInfo - {keyinfo};
      }
    }

    /** The tables' part of a request, up to the agent calls. */
    method Enter(r: PinentryRequest) returns (curRetry: int, maxRetries: int)
      modifies this
      ensures Data() == old(Data()).Claimed(r).ResolveRetry(r).0
      ensures curRetry == old(Data()).ResolveRetry(r).1 && maxRetries == old(Data()).ResolveRetry(r).2
    {
      owners := owners[r.cookie := r.pid];
      if r.keyinfo != "" {
        keyinfos := keyinfos[r.cookie := r.keyinfo];
      }
      curRetry, maxRetries := ResolveRetryInfo(r);
    }

    // -- with the agent

    /** A request for a flow that awaits its outcome means the answer was wrong. */
    method MarkRetried(agent: Agent, r: PinentryRequest, env: Env)
      requires agent.Valid()
      modifies this, agent.Owned()
      ensures agent.Valid() && agent.store.Objects() == old(agent.store.Objects())
      ensures Data() == old(Data()).CleanupAwaiting(r.cookie)
      ensures agent.Data() == Apply(old(agent.Data()), RetriedOps(old(Data()), r), env)
    {
      hide Agent.Data, Env.Valid, Apply, ApplyOne;
      ghost var c := agent.Data();
      ApplyRetried(c, Data(), r, env);
      if r.cookie in awaiting {
        CleanupAwaiting(r.cookie);
        assert agent.Data() == c;
        agent.UpdateSessionError(r.cookie, if r.error == "" then "Authentication failed" else r.error, env);
      }
    }

    method Prompt(agent: Agent, sessionExists: bool, r: PinentryRequest, curRetry: int, maxRetries: int, env: Env)
      requires agent.Valid() && sessionExists == (r.cookie in agent.Data().store)
      modifies agent.Owned()
      ensures agent.Valid() && fresh(agent.store.Objects() - old(agent.store.Objects()))
      ensures agent.Data() == ApplyOne(old(agent.Data()), PromptedOp(sessionExists, r, curRetry, maxRetries, env), env)
    {
      if !sessionExists {
        var created := agent.OpenSession(r.cookie, Pinentry, PinentryContext(r, curRetry, maxRetries, env), r.prompt, false, env);
      } else {
        agent.RepromptSession(r.cookie, curRetry, maxRetries, r.prompt, env);
      }
    }

    method Complain(agent: Agent, r: PinentryRequest, env: Env)
      requires agent.Valid()
      modifies this`reported, agent.Owned()
      ensures agent.Valid() && agent.store.Objects() == old(agent.store.Objects())
      ensures Data() == old(Data()).(reported := old(Data()).reported - {r.cookie})
      ensures agent.Data() == Apply(old(agent.Data()), ComplainedOps(old(Data()), r), env)
    {
      hide Agent.Data;
      ghost var c := agent.Data();
      ApplySingle(c, DoError(r.cookie, r.error), env);
      var shouldEmit := r.error != "";
      if r.cookie in reported {
        shouldEmit := false;
      }
      reported := reported - {r.cookie};
      assert agent.Data() == c;
      if shouldEmit {
        agent.UpdateSessionError(r.cookie, r.error, env);
      }
    }

    method CloseFlow(agent: Agent, id: Id, result: Result, error: string, env: Env)
      requires agent.Valid() && env.Valid()
      modifies this, agent.Owned()
      ensures agent.Valid() && agent.store.Objects() <= old(agent.store.Objects())
      ensures Data() == old(Data()).Forget(id) && agent.Data() == old(agent.Data()).CloseFlow(id, result, error, env)
    {
      hide Agent.Data, PinTables.Forget;
      CloseItsSession(agent, id, result, error, env);
      ghost var c := agent.Data();
      Forget(id);
      assert agent.Data() == c;
    }

    /** Whether there is anything under this id that can be cancelled. */
    predicate HasRequest(agent: Agent, id: Id)
      reads this, agent, agent.store, agent.store.Objects()
      ensures HasRequest(agent, id) == PinentryManagers.HasRequest(Data(), agent.store.Data(), id)
    {
      id in pending || id in awaiting || agent.store.GetSource(id) == Some(Pinentry)
    }

    method HandleCancel(agent: Agent, id: Id, env: Env) returns (reply: Msg)
      requires agent.Valid() && env.Valid()
      modifies this, agent.Owned()
      ensures agent.Valid() && agent.store.Objects() <= old(agent.store.Objects())
      ensures if old(HasRequest(agent, id)) then
                && reply == PinentryReply(id, Declined)
                && Data() == old(Data()).Forget(id) && agent.Data() == old(agent.Data()).CloseFlow(id, Cancelled, "", env)
              else reply == Failure("Unknown session") && Data() == old(Data()) && agent.Data() == old(agent.Data())
    {
      hide Agent.Data, PinTables.Forget;
      if HasRequest(agent, id) {
        CloseFlow(agent, id, Cancelled, "", env);
        reply := PinentryReply(id, Declined);
      } else {
        reply := Failure("Unknown session");
      }
    }

    method CloseItsSession(agent: Agent, id: Id, result: Result, error: string, env: Env)
      requires agent.Valid() && env.Valid()
      modifies agent.Owned()
      ensures agent.Valid() && agent.store.Objects() <= old(agent.store.Objects())
      ensures agent.Data() == old(agent.Data()).CloseFlow(id, result, error, env)
    {
      var source := agent.store.GetSource(id);
      if source == Some(Pinentry) {
        if error != "" {
          agent.UpdateSessionError(id, error, env);
        }
        agent.CloseSession(id, result, env);
      }
    }

    /** Nothing at all happens to a flow that another process owns. */
    method HandleRequest(agent: Agent, msg: PinentryMessage, s: Socket, pid: Pid, env: Env)
      requires agent.Valid()
      modifies this, agent.Owned()
      ensures agent.Valid() && fresh(agent.store.Objects() - old(agent.store.Objects()))
      ensures var (t, ops) := PinentryHandleRequest(old(Data()), old(agent.Data()).store, msg, s, pid, env);
              Data() == t && agent.Data() == Apply(old(agent.Data()), ops, env)
    {
      var r := ParsePinentry(msg, s, pid, env);
      RequestOps(Data(), agent.Data().store, msg, s, pid, env);
      if r.cookie in owners && owners[r.cookie] != pid {
        return;
      }
      Accept(agent, r, env);
    }

    method Accept(agent: Agent, r: PinentryRequest, env: Env)
      requires agent.Valid()
      modifies this, agent.Owned()
      ensures agent.Valid() && fresh(agent.store.Objects() - old(agent.store.Objects()))
      ensures Data() == old(Data()).Pended(r)
      ensures var (t, c) := (old(Data()), old(agent.Data()));
              var (_, cur, max) := t.ResolveRetry(r);
              agent.Data() ==
              Apply(c, RetriedOps(t, r) + [PromptedOp(r.cookie in c.store, r, cur, max, env)] + ComplainedOps(t, r), env)
    {
      hide Agent.Data, ApplyOne;
      ghost var c := agent.Data();
      var curRetry, maxRetries := Enter(r);
      assert agent.Data() == c;
      Carry(agent, r, curRetry, maxRetries, env);
    }

    /** The part of a request that the user sees. */
    method Carry(agent: Agent, r: PinentryRequest, curRetry: int, maxRetries: int, env: Env)
      requires agent.Valid()
      modifies this, agent.Owned()
      ensures agent.Valid() && fresh(agent.store.Objects() - old(agent.store.Objects()))
      ensures var t := old(Data()).CleanupAwaiting(r.cookie);
              Data() == t.(pending := t.pending[r.cookie := r], reported := t.reported - {r.cookie})
      ensures var (t, c) := (old(Data()), old(agent.Data()));
              agent.Data() ==
              Apply(c, RetriedOps(t, r) + [PromptedOp(r.cookie in c.store, r, curRetry, maxRetries, env)] + ComplainedOps(t, r), env)
    {
      hide Agent.Data, Apply, ApplyOne;
      ghost var t, c := Data(), agent.Data();
      ghost var op := PromptedOp(r.cookie in c.store, r, curRetry, maxRetries, env);
      ghost var goal := Apply(c, RetriedOps(t, r) + [op] + ComplainedOps(t, r), env);
      ApplyThree(c, RetriedOps(t, r), op, ComplainedOps(t, r), env);
      var sessionExists := Repend(agent, r, env);
      PromptAndComplain(agent, sessionExists, r, curRetry, maxRetries, env);
      assert agent.Data() == goal;
    }

    method Repend(agent: Agent, r: PinentryRequest, env: Env) returns (sessionExists: bool)
      requires agent.Valid()
      modifies this, agent.Owned()
      ensures agent.Valid() && agent.store.Objects() == old(agent.store.Objects())
      ensures sessionExists == (r.cookie in old(agent.Data()).store) == (r.cookie in agent.Data().store)
      ensures var t := old(Data()).CleanupAwaiting(r.cookie); Data() == t.(pending := t.pending[r.cookie := r])
      ensures agent.Data() == Apply(old(agent.Data()), RetriedOps(old(Data()), r), env)
    {
      var source := agent.store.GetSource(r.cookie);
      sessionExists := source.Some?;
      agent.store.KeyedById();
      RetriedKeepsStore(agent.Data(), Data(), r, env);
      MarkRetried(agent, r, env);
      ghost var c := agent.Data();
      pending := pending[r.cookie := r];
      assert agent.Data() == c;
    }

    method PromptAndComplain(agent: Agent, sessionExists: bool, r: PinentryRequest, curRetry: int, maxRetries: int, env: Env)
      requires agent.Valid() && sessionExists == (r.cookie in agent.Data().store)
      modifies this`reported, agent.Owned()
      ensures agent.Valid() && fresh(agent.store.Objects() - old(agent.store.Objects()))
      ensures Data() == old(Data()).(reported := old(Data()).reported - {r.cookie})
      ensures agent.Data() ==
              Apply(ApplyOne(old(agent.Data()), PromptedOp(sessionExists, r, curRetry, maxRetries, env), env), ComplainedOps(old(Data()), r), env)
    {
      hide ApplyOne, Apply, PinentryManager.Data, Agent.Data;
      Prompt(agent, sessionExists, r, curRetry, maxRetries, env);
      Complain(agent, r, env);
    }

    method HandleResult(agent: Agent, pid: Pid, id: Id, word: ResultWord, error: string, env: Env) returns (reply: Msg)
      requires agent.Valid() && env.Valid()
      modifies this, agent.Owned()
      ensures agent.Valid() && agent.store.Objects() <= old(agent.store.Objects())
      ensures var (t, ops, m) := PinentryHandleResult(old(Data()), old(agent.Data()).store, id, pid, word, error);
              Data() == t && agent.Data() == Apply(old(agent.Data()), ops, env) && reply == m
    {
      hide ApplyOne, PinentryManager.Data, Env.Valid;
      if id == "" {
        return Failure("Missing id");
      }
      if !ValidResultOwner(id, pid) {
        return Failure("Result sender does not own session");
      }
      var source := agent.store.GetSource(id);
      if source != Some(Pinentry) {
        return Failure("Unknown pinentry session");
      }
      reply := Conclude(agent, id, word, error, env);
    }

    method Conclude(agent: Agent, id: Id, word: ResultWord, error: string, env: Env) returns (reply: Msg)
      requires agent.Valid() && env.Valid()
      modifies this, agent.Owned()
      ensures agent.Valid() && agent.store.Objects() <= old(agent.store.Objects())
      ensures Data() == Concluded(old(Data()), id, word)
      ensures agent.Data() == Apply(old(agent.Data()), ConcludedOps(id, word, error), env)
      ensures reply == if word.SaysOther? then Failure("Invalid result type") else Ok(None)
    {
      ghost var goal := Apply(agent.Data(), ConcludedOps(id, word, error), env);
      match word {
        case SaysSuccess =>
          ApplySingle(agent.Data(), DoCloseFlow(id, Success, ""), env);
          CloseFlow(agent, id, Success, "", env);
          assert agent.Data() == goal;
        case SaysRetry =>
          Retry(agent, id, if error == "" then "Authentication failed" else error, env);
          assert agent.Data() == goal;
        case SaysCancelled =>
          ApplySingle(agent.Data(), DoCloseFlow(id, Cancelled, ""), env);
          CloseFlow(agent, id, Cancelled, "", env);
          assert agent.Data() == goal;
        case SaysError =>
          ApplySingle(agent.Data(), DoCloseFlow(id, Error, OrFailed(error)), env);
          CloseFlow(agent, id, Error, if error == "" then "Authentication failed" else error, env);
          assert agent.Data() == goal;
        case SaysOther => return Failure("Invalid result type");
      }
      reply := Ok(None);
    }

    method Retry(agent: Agent, id: Id, reason: string, env: Env)
      requires agent.Valid()
      modifies this, agent.Owned()
      ensures agent.Valid() && agent.store.Objects() == old(agent.store.Objects())
      ensures Data() == Concluded(old(Data()), id, SaysRetry)
      ensures agent.Data() == Apply(old(agent.Data()), [DoError(id, reason)], env)
    {
      hide Agent.Data;
      ghost var c := agent.Data();
      ApplySingle(c, DoError(id, reason), env);
      CleanupAwaiting(id);
      reported := reported + {id};
      assert agent.Data() == c;
      agent.UpdateSessionError(id, reason, env);
    }

    method OnTimeout(agent: Agent, timer: nat, env: Env)
      requires agent.Valid() && env.Valid() && timer in timers
      modifies this, agent.Owned()
      ensures agent.Valid() && agent.store.Objects() <= old(agent.store.Objects())
      ensures var id := old(Data()).timers[timer];
              Data() == old(Data()).Forget(id) && agent.Data() == old(agent.Data()).CloseFlow(id, Error, NO_RESULT, env)
    {
      CloseFlow(agent, timers[timer], Error, NO_RESULT, env);
    }

    /** Collects the flows first and closes them afterwards. */
    method CleanupForSocket(agent: Agent, s: Socket, env: Env)
      requires agent.Valid() && env.Valid()
      modifies this, agent.Owned()
      ensures agent.Valid() && agent.store.Objects() <= old(agent.store.Objects())
      ensures var (t, ops) := PinentryCleanup(old(Data()), s, env);
              Data() == t && agent.Data() == Apply(old(agent.Data()), ops, env)
    {
      var cookies := CookiesOf(s, env);
      CloseAll(agent, cookies, env);
    }

    method CookiesOf(s: Socket, env: Env) returns (cookies: seq<Id>)
      requires env.Valid()
      ensures cookies == Only(env.idOrder(Data().pending.Keys), PinentryOwned(Data(), s))
    {
      var order := env.idOrder(pending.Keys);
      assert Enumerates(order, pending.Keys);
      cookies := [];
      ghost var owned := PinentryOwned(Data(), s);
      for i := 0 to |order|
        invariant cookies + Only(order[i..], owned) == Only(order, owned)
      {
        assert order[i..][1..] == order[i + 1..];
        if pending[order[i]].socket == s {
          cookies := cookies + [order[i]];
        }
      }
    }

    method CloseAll(agent: Agent, cookies: seq<Id>, env: Env)
      requires agent.Valid() && env.Valid()
      modifies this, agent.Owned()
      ensures agent.Valid() && agent.store.Objects() <= old(agent.store.Objects())
      ensures Data() == old(Data()).ForgetAll(cookies)
      ensures agent.Data() == Apply(old(agent.Data()), Disconnections(cookies), env)
    {
      for i := 0 to |cookies|
        invariant agent.Valid() && agent.store.Objects() <= old(agent.store.Objects())
        invariant Data().ForgetAll(cookies[i..]) == old(Data()).ForgetAll(cookies)
        invariant Apply(agent.Data(), Disconnections(cookies[i..]), env) == Apply(old(agent.Data()), Disconnections(cookies), env)
      {
        assert cookies[i..][1..] == cookies[i + 1..];
        DisconnectNext(agent.Data(), cookies[i..], env);
        CloseFlow(agent, cookies[i], Cancelled, GONE, env);
      }
    }
  }
}
