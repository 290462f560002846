/** What each agent call does to the sessions, and which events it routes, field by field. */
module Bulletins {
  import opened Base
  import opened Sessions
  import opened EventQueues
  import opened Environments
  import opened ProviderRegistries
  import opened ProviderLaunchers
  import opened AgentCore
  import opened CoreInvariants
  import opened TableAgreement

  /** What a UI is shown of a session. */
  function Sight(d: SessionData): Event {
    Updated(d.id, d.prompt, d.echo, if d.source == Pinentry then Some((d.context.curRetry, d.context.maxRetries)) else None, d.error, d.info)
  }

  /** The live sessions and all events routed so far. */
  datatype Board = Board(store: map<Id, SessionData>, routed: seq<Event>)
  {
    /** The session is new, and announced with the details that its source exposes. */
    function Open(id: Id, source: Source, context: Context, details: Details): Board {
      var shown := context.requestor.(pid := if context.requestor.pid > 0 then context.requestor.pid else 0);
      Board(store[id := SessionData(id, source, context, false, "", "", "", false, None)],
            routed + [Created(id, source, context.message, shown, details)])
    }

    /** The session takes the value `d`, and an update shows it. */
    function Show(d: SessionData): Board {
      Board(store[d.id := d], routed + [Sight(d)])
    }

    function Prompt(id: Id, prompt: string, echo: bool): Board {
      if id in store then Show(store[id].(prompt := prompt, echo := echo, error := "", info := "", closed := false)) else this
    }

    function Complain(id: Id, error: string): Board {
      if id in store then Show(store[id].(error := error)) else this
    }

    function Inform(id: Id, info: string): Board {
      if id in store then Show(store[id].(info := info)) else this
    }

    /** The session is gone, and its end announced with its last error, unless it succeeded. */
    function End(id: Id, result: Result): Board {
      if id in store then Board(store - {id}, routed + [Closed(id, result, if result == Success then "" else store[id].error)]) else this
    }
  }

  function DetailsOf(source: Source, context: Context): Details {
    match source
    case Polkit => PolkitDetails(context.actionId, context.user)
    case Keyring => KeyringDetails(context.keyringName)
    case Pinentry => PinentryDetails(context.description, context.keyinfo, context.curRetry, context.maxRetries, context.confirmOnly, context.repeat)
  }

  /** Retry counts as a session keeps them. */
  function Counted(context: Context, cur: int, max: int): Context {
    context.(curRetry := if cur < 0 then 0 else cur, maxRetries := if max <= 0 then 3 else max)
  }

  function BoardAfter(b: Board, op: Op): Board {
    match op
    case DoCreate(id, source, context) => if id in b.store then b else b.Open(id, source, context, DetailsOf(source, context))
    case DoOpen(id, source, context, prompt, _) =>
      if id in b.store then b else b.Open(id, source, context, DetailsOf(source, context)).Prompt(id, prompt, false)
    case DoReprompt(id, cur, max, prompt) =>
      if id !in b.store then b
      else
        var s := b.store[id];
        b.Show(s.(context := if s.source == Pinentry then Counted(s.context, cur, max) else s.context,
                  prompt := prompt, echo := false, info := "", closed := false))
    case DoPrompt(id, prompt, echo) => b.Prompt(id, prompt, echo)
    case DoError(id, error) => b.Complain(id, error)
    case DoInfo(id, info) => b.Inform(id, info)
    case DoClose(id, result) => b.End(id, result)
    case DoCloseFlow(id, result, error) =>
      if id in b.store && b.store[id].source == Pinentry then (if error == "" then b else b.Complain(id, error)).End(id, result) else b
    case DoComplete(id, success) => b.End(id, if success then Success else Cancelled)
    case _ => b
  }

  function BoardAfterAll(b: Board, ops: seq<Op>): Board
    decreases |ops|
  {
    if ops == [] then b else BoardAfterAll(BoardAfter(b, ops[0]), ops[1..])
  }

  function BoardOf(c: Core): Board {
    Board(c.store, c.queue.routed)
  }

  // ---- the agent does what the table says

  lemma {:induction false} DrainRoutesNothing(q: QueueData)
    ensures q.Drain().routed == q.routed
    decreases |q.waiters|
  {
    if q.waiters != [] && q.events != [] {
      DrainRoutesNothing(q.(waiters := q.waiters[1..]).TakeFirst(q.waiters[0]));
    }
  }

  lemma RouteBoard(c: Core, e: Event, env: Env)
    ensures BoardOf(c.Route(e, env)) == Board(c.store, c.queue.routed + [e])
  {
    RouteChanges(c, e, env);
    DrainRoutesNothing(c.queue.Enqueue(e));
  }

  lemma UpdateBoard(c: Core, d: SessionData, env: Env)
    ensures BoardOf(c.Update(d, env)) == BoardOf(c).Show(d)
  {
    hide Core.Route;
    RouteBoard(c.(store := c.store[d.id := d]), d.UpdatedEvent(), env);
  }

  lemma CreateBoard(c: Core, id: Id, source: Source, context: Context, env: Env)
    requires id !in c.store
    ensures BoardOf(c.Create(id, source, context, env)) == BoardOf(c).Open(id, source, context, DetailsOf(source, context))
  {
    hide Core.Route, Launcher.EnsureFallback;
    var d := NewSession(id, source, context);
    RouteBoard(c.(store := c.store[id := d]), d.CreatedEvent(), env);
  }

  lemma CloseBoard(c: Core, id: Id, result: Result, env: Env)
    requires StoreInv(c.store)
    ensures BoardOf(c.Close(id, result, env)) == BoardOf(c).End(id, result)
  {
    hide Core.Route, Registry.Recompute, Core.Inbox;
    if id in c.store {
      RouteBoard(c.(store := c.store - {id}).RecomputeIfIdle(env), c.store[id].Close(result).ClosedEvent(), env);
    }
  }

  lemma CompleteBoard(c: Core, id: Id, success: bool, env: Env)
    requires StoreInv(c.store)
    ensures BoardOf(c.Complete(id, success, env)) == BoardOf(c).End(id, if success then Success else Cancelled)
  {
    hide Core.Route, Registry.Recompute, Core.Inbox;
    if id in c.store {
      RouteBoard(c.(store := c.store - {id}), c.store[id].Close(if success then Success else Cancelled).ClosedEvent(), env);
    }
  }

  lemma OpeningBoard(c: Core, op: Op, env: Env)
    requires StoreInv(c.store) && (op.DoCreate? || op.DoOpen?)
    ensures BoardOf(ApplyOne(c, op, env)) == BoardAfter(BoardOf(c), op)
  {
    hide Core.Create, Core.Update;
    if op.id !in c.store {
      CreateBoard(c, op.id, op.source, op.context, env);
      if op.DoOpen? {
        var c1 := c.Create(op.id, op.source, op.context, env);
        assert c1.store[op.id] == NewSession(op.id, op.source, op.context);
        UpdateBoard(c1, c1.store[op.id].SetPrompt(op.prompt, false, op.clearError), env);
      }
    } else {
      hide Board.Open, Board.Prompt;
      CreateLive(c, op.id, op.source, op.context, env);
    }
  }

  lemma RepromptBoard(c: Core, op: Op, env: Env)
    requires StoreInv(c.store) && op.DoReprompt?
    ensures BoardOf(ApplyOne(c, op, env)) == BoardAfter(BoardOf(c), op)
  {
    hide Core.Update;
    if op.id in c.store {
      var c1 := c.UpdatePinentryRetry(op.id, op.cur, op.max);
      var d := c1.store[op.id].SetPrompt(op.prompt, false, false);
      UpdateBoard(c1, d, env);
      assert c1.store[d.id := d] == c.store[d.id := d];
    }
  }

  lemma UpdatingBoard(c: Core, op: Op, env: Env)
    requires StoreInv(c.store) && (op.DoPrompt? || op.DoError? || op.DoInfo?)
    ensures BoardOf(ApplyOne(c, op, env)) == BoardAfter(BoardOf(c), op)
  {
    hide Core.Update;
    if op.id in c.store {
      var d := c.store[op.id];
      match op
      case DoPrompt(id, prompt, echo) => UpdateBoard(c, d.SetPrompt(prompt, echo, true), env);
      case DoError(id, error) => UpdateBoard(c, d.SetError(error), env);
      case DoInfo(id, info) => UpdateBoard(c, d.SetInfo(info), env);
    }
  }

  lemma CloseFlowBoard(c: Core, op: Op, env: Env)
    requires StoreInv(c.store) && op.DoCloseFlow?
    ensures BoardOf(ApplyOne(c, op, env)) == BoardAfter(BoardOf(c), op)
  {
    hide Core.Update, Core.Close;
    if op.id in c.store && c.store[op.id].source == Pinentry {
      if op.error == "" {
        CloseBoard(c, op.id, op.result, env);
      } else {
        var d := c.store[op.id].SetError(op.error);
        UpdateBoard(c, d, env);
        CloseBoard(c.Update(d, env), op.id, op.result, env);
      }
    }
  }

  lemma OtherBoard(c: Core, op: Op, env: Env)
    requires LeavesStore(op)
    ensures BoardOf(ApplyOne(c, op, env)) == BoardOf(c)
  {
    if op.DoRegister? || op.DoHeartbeat? || op.DoUnregister? || op.DoRemoveProvider? || op.DoPrune? || op.DoEnsure? {
      ProviderBoard(c, op, env);
    } else {
      hide Core.Inbox, Without, Core.SendEach;
    }
  }

  lemma ProviderBoard(c: Core, op: Op, env: Env)
    requires op.DoRegister? || op.DoHeartbeat? || op.DoUnregister? || op.DoRemoveProvider? || op.DoPrune? || op.DoEnsure?
    ensures BoardOf(ApplyOne(c, op, env)) == BoardOf(c)
  {
    hide Registry.Recompute, Registry.Register, Core.Inbox, Registry.Heartbeat, Launcher.EnsureFallback, Registry.HasActive;
  }

  lemma OpBoard(c: Core, op: Op, env: Env)
    requires StoreInv(c.store)
    ensures BoardOf(ApplyOne(c, op, env)) == BoardAfter(BoardOf(c), op)
  {
    hide ApplyOne, BoardAfter, StoreInv;
    if op.DoCreate? || op.DoOpen? {
      OpeningBoard(c, op, env);
    } else if op.DoReprompt? {
      RepromptBoard(c, op, env);
    } else if op.DoPrompt? || op.DoError? || op.DoInfo? {
      UpdatingBoard(c, op, env);
    } else if op.DoCloseFlow? {
      CloseFlowBoard(c, op, env);
    } else if op.DoClose? || op.DoComplete? {
      EndingBoard(c, op, env);
    } else {
      OtherBoard(c, op, env);
      BoardStays(BoardOf(c), op);
    }
  }

  lemma BoardStays(b: Board, op: Op)
    requires LeavesStore(op)
    ensures BoardAfter(b, op) == b
  {
  }

  lemma EndingBoard(c: Core, op: Op, env: Env)
    requires StoreInv(c.store) && (op.DoClose? || op.DoComplete?)
    ensures BoardOf(ApplyOne(c, op, env)) == BoardAfter(BoardOf(c), op)
  {
    if op.DoClose? {
      CloseBoard(c, op.id, op.result, env);
    } else {
      CompleteBoard(c, op.id, op.success, env);
    }
  }

  lemma {:induction false} BoardFollows(c: Core, ops: seq<Op>, env: Env)
    requires env.Valid() && CoreInv(c)
    ensures BoardOf(Apply(c, ops, env)) == BoardAfterAll(BoardOf(c), ops)
    decreases |ops|
  {
    hide ApplyOne, BoardAfter, StoreInv, Env.Valid;
    if ops != [] {
      OpBoard(c, ops[0], env);
      OpKeeps(c, ops[0], env);
      BoardFollows(ApplyOne(c, ops[0], env), ops[1..], env);
    }
  }

  lemma {:induction false} BoardConcat(b: Board, xs: seq<Op>, ys: seq<Op>)
    ensures BoardAfterAll(b, xs + ys) == BoardAfterAll(BoardAfterAll(b, xs), ys)
    decreases |xs|
  {
    hide BoardAfter;
    if xs == [] {
      assert xs + ys == ys;
    } else {
      assert (xs + ys)[1..] == xs[1..] + ys;
      BoardConcat(BoardAfter(b, xs[0]), xs[1..], ys);
    }
  }

  lemma BoardSingle(b: Board, op: Op)
    ensures BoardAfterAll(b, [op]) == BoardAfter(b, op)
  {
    hide BoardAfter;
    assert [op][1..] == [];
  }

  lemma {:induction false} BoardUntouched(b: Board, ops: seq<Op>)
    requires forall i :: 0 <= i < |ops| ==> LeavesStore(ops[i])
    ensures BoardAfterAll(b, ops) == b
    decreases |ops|
  {
    if ops != [] {
      BoardUntouched(b, ops[1..]);
    }
  }

  /** A new subscriber is introduced to each session in turn, and shown how it stands. */
  lemma {:induction false} SnapshotShows(ids: seq<Id>, store: map<Id, SessionData>, k: nat)
    requires k < |ids| && forall id :: id in ids ==> id in store
    ensures |Snapshot(ids, store)| == 2 * |ids|
    ensures var d, who := store[ids[k]], store[ids[k]].context.requestor;
            && Snapshot(ids, store)[2 * k] ==
               SessionMsg(Created(d.id, d.source, d.context.message, who.(pid := if who.pid > 0 then who.pid else 0), DetailsOf(d.source, d.context)))
            && Snapshot(ids, store)[2 * k + 1] == SessionMsg(Sight(d))
  {
    var rest := ids[1..];
    assert forall id :: id in rest ==> id in ids;
    if k > 0 {
      SnapshotShows(rest, store, k - 1);
    } else if rest != [] {
      SnapshotShows(rest, store, 0);
    }
  }
}
