/** What an agent call leaves alone. */
module CoreFrames {
  import opened Base
  import opened Sessions
  import opened EventQueues
  import opened Environments
  import opened ProviderRegistries
  import opened AgentCore
  import opened CoreInvariants

  /** Calls that concern sessions. */
  predicate IsSessionOp(op: Op) {
    op.DoCreate? || op.DoOpen? || op.DoReprompt? || op.DoPrompt? || op.DoError? || op.DoInfo? || op.DoClose? || op.DoCloseFlow? || op.DoComplete?
  }

  /** The registry is as it was, or freshly elected. */
  ghost predicate SameOrElected(r: Registry, r': Registry, env: Env) {
    r' == r || r' == r.Recompute(env)
  }

  /** What session calls never touch. */
  ghost predicate SessionFrame(c: Core, c': Core, env: Env) {
    && c'.subscribers == c.subscribers && c'.replies == c.replies && c'.issued == c.issued
    && c.fallbackCalls <= c'.fallbackCalls
    && SameOrElected(c.registry, c'.registry, env)
    && forall x :: x in c'.queue.waiters ==> x in c.queue.waiters
  }

  lemma {:induction false} DrainWaiters(q: QueueData)
    ensures forall x :: x in q.Drain().waiters ==> x in q.waiters
    decreases |q.waiters|
  {
    if q.waiters != [] && q.events != [] {
      DrainWaiters(q.(waiters := q.waiters[1..]).TakeFirst(q.waiters[0]));
      assert q.waiters == [q.waiters[0]] + q.waiters[1..];
    }
  }

  lemma RouteFrame(c: Core, e: Event, env: Env)
    ensures SessionFrame(c, c.Route(e, env), env) && c.Route(e, env).registry == c.registry
  {
    RouteChanges(c, e, env);
    DrainWaiters(c.queue.Enqueue(e));
  }

  lemma UpdateFrame(c: Core, d: SessionData, env: Env)
    ensures SessionFrame(c, c.Update(d, env), env) && c.Update(d, env).registry == c.registry
  {
    RouteFrame(c.(store := c.store[d.id := d]), d.UpdatedEvent(), env);
  }

  lemma CreateFrame(c: Core, id: Id, source: Source, context: Context, env: Env)
    ensures SessionFrame(c, c.Create(id, source, context, env), env) && c.Create(id, source, context, env).registry == c.registry
  {
    if id !in c.store {
      var d := NewSession(id, source, context);
      RouteFrame(c.(store := c.store[id := d]), d.CreatedEvent(), env);
    }
  }

  lemma CloseFrame(c: Core, id: Id, result: Result, env: Env)
    ensures SessionFrame(c, c.Close(id, result, env), env)
  {
    if id in c.store {
      RouteFrame(c.(store := c.store - {id}).RecomputeIfIdle(env), c.store[id].Close(result).ClosedEvent(), env);
    }
  }

  lemma CompleteFrame(c: Core, id: Id, success: bool, env: Env)
    ensures SessionFrame(c, c.Complete(id, success, env), env)
  {
    hide QueueData.Drain;
    if id in c.store {
      RouteFrame(c.(store := c.store - {id}), c.store[id].Close(if success then Success else Cancelled).ClosedEvent(), env);
    }
  }

  lemma CloseFlowFrame(c: Core, id: Id, result: Result, error: string, env: Env)
    ensures SessionFrame(c, c.CloseFlow(id, result, error, env), env)
  {
    if id in c.store {
      UpdateFrame(c, c.store[id].SetError(error), env);
      CloseFrame(c.UpdateError(id, error, env), id, result, env);
      CloseFrame(c, id, result, env);
    }
  }

  lemma OpeningFrame(c: Core, op: Op, env: Env)
    requires op.DoCreate? || op.DoOpen? || op.DoReprompt?
    ensures SessionFrame(c, ApplyOne(c, op, env), env)
  {
    match op
    case DoCreate(id, source, context) => CreateFrame(c, id, source, context, env);
    case DoOpen(id, source, context, prompt, clearError) =>
      CreateFrame(c, id, source, context, env);
      var c1 := c.Create(id, source, context, env);
      if id in c1.store {
        UpdateFrame(c1, c1.store[id].SetPrompt(prompt, false, clearError), env);
      }
    case DoReprompt(id, cur, max, prompt) =>
      var c1 := c.UpdatePinentryRetry(id, cur, max);
      if id in c1.store {
        UpdateFrame(c1, c1.store[id].SetPrompt(prompt, false, false), env);
      }
  }

  lemma SessionOpFrame(c: Core, op: Op, env: Env)
    requires IsSessionOp(op)
    ensures SessionFrame(c, ApplyOne(c, op, env), env)
  {
    if op.DoCreate? || op.DoOpen? || op.DoReprompt? {
      OpeningFrame(c, op, env);
    } else if op.DoCloseFlow? {
      CloseFlowFrame(c, op.id, op.result, op.error, env);
    } else if op.DoClose? {
      CloseFrame(c, op.id, op.result, env);
    } else if op.DoComplete? {
      CompleteFrame(c, op.id, op.success, env);
    } else if op.id in c.store {
      var d := c.store[op.id];
      match op
      case DoPrompt(id, prompt, echo) => UpdateFrame(c, d.SetPrompt(prompt, echo, true), env);
      case DoError(id, error) => UpdateFrame(c, d.SetError(error), env);
      case DoInfo(id, info) => UpdateFrame(c, d.SetInfo(info), env);
    }
  }
}
