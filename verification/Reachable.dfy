/** What the invariant says, in plain terms, of every state the daemon can reach. */
module Reachable {
  import opened Base
  import opened EventQueues
  import opened ProviderRegistries
  import opened ProviderLaunchers
  import opened AgentCore
  import opened CoreInvariants
  import opened Daemons
  import opened TableAgreement

  /** For every id the routed events read (created updated* closed)*, with one open session exactly if the id is in
      the store. */
  lemma EventsTellTheStore(steps: seq<Step>, id: Id)
    requires ValidSteps(steps)
    ensures var c := Run(INITIAL, steps).core;
            && LifeOf(c.queue.routed, id) == (if id in c.store then Open else Absent)
            && CountCreated(c.queue.routed, id) == CountClosed(c.queue.routed, id) + if id in c.store then 1 else 0
  {
    RunKeeps(steps);
    LifeCounts(Run(INITIAL, steps).core.queue.routed, id);
  }

  /** A registered provider is always the one that may answer, and the only one; it is maximal. */
  lemma OneProviderMayAnswer(steps: seq<Step>)
    requires ValidSteps(steps) && Run(INITIAL, steps).core.registry.providers != map[]
    ensures var r := Run(INITIAL, steps).core.registry;
            exists s :: s in r.providers && (forall t :: r.Authorizes(t) <==> t == s)
                        && forall t :: t in r.providers ==> !Better(r.providers[t], r.providers[s])
  {
    RunKeeps(steps);
    var r := Run(INITIAL, steps).core.registry;
    AuthorityIsUnique(r);
    assert r.Authorizes(r.active.value);
  }

  /** Callers of `next` receive genuine events in routed order, each event at most once; an event is lost only when 256
      newer ones came before anything newer was handed out. */
  lemma NextIsInOrder(steps: seq<Step>, j: nat, k: nat)
    requires ValidSteps(steps) && j < k < |Run(INITIAL, steps).core.queue.taken|
    ensures var q := Run(INITIAL, steps).core.queue;
            && 0 <= q.taken[j].index < q.taken[k].index < |q.routed| && q.taken[k].event == q.routed[q.taken[k].index]
            && forall i :: 0 <= i < q.taken[k].index && !WasTaken(q, i) ==> q.taken[k].at > i + MAX_QUEUED
  {
    RunKeeps(steps);
    var q := Run(INITIAL, steps).core.queue;
    forall i | 0 <= i < q.taken[k].index && !WasTaken(q, i) ensures q.taken[k].at > i + MAX_QUEUED {
      assert PushedOut(q, i);
    }
  }

  /** Successful launches are 5 s apart, and k >= 5 failures in a row of one candidate take 7500 + 5000 (k - 5) ms. */
  lemma LaunchesAreSpaced(steps: seq<Step>, id: Id)
    requires ValidSteps(steps)
    ensures var l := Run(INITIAL, steps).core.launcher;
            var failures := FailuresOf(l.history, id);
            && CooledDown(LaunchTimes(l.history)) && BackedOff(failures)
            && (|failures| >= 5 ==> failures[|failures| - 1] - failures[0] >= 7500 + 5000 * (|failures| - 5))
  {
    hide Run;
    RunKeeps(steps);
    hide Run, Cap;
    var l := Run(INITIAL, steps).core.launcher;
    assert RetryInv(l, id);
    if |FailuresOf(l.history, id)| >= 5 {
      FailuresTakeTime(FailuresOf(l.history, id));
    }
  }
}
