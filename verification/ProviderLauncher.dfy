/** Launching a fallback UI: a back-off per candidate, and a cool-down between successful launches. */
module ProviderLaunchers {
  import opened Base
  import opened Environments

  const BASE_BACKOFF_MS: int := 250
  const MAX_BACKOFF_MS: int := 5000
  const LAUNCH_COOLDOWN_MS: int := 5000
  const MAX_JITTER_MS: int := 120

  datatype RetryState = RetryState(failures: nat, nextEligible: int)

  /** A process start that was really tried. */
  datatype Attempt = Attempt(id: Id, at: int, launched: bool)

  function Shifted(base: int, bits: nat): int {
    if bits == 0 then base else 2 * Shifted(base, bits - 1)
  }

  function Min(a: int, b: int): int {
    if a < b then a else b
  }

  /** The back-off without its jitter. */
  function Cap(failures: nat): int {
    Min(Shifted(BASE_BACKOFF_MS, Min(failures, 8)), MAX_BACKOFF_MS)
  }

  datatype Launcher = Launcher(retry: map<Id, RetryState>, lastLaunch: int, history: seq<Attempt>)
  {
    predicate CanAttempt(id: Id, now: int) {
      id !in retry || now >= retry[id].nextEligible
    }

    function MarkFailure(id: Id, env: Env): Launcher {
      var failures := (if id in retry then retry[id].failures else 0) + 1;
      this.(retry := retry[id := RetryState(failures, env.now + Cap(failures) + env.jitter)],
            history := history + [Attempt(id, env.now, false)])
    }

    function MarkSuccess(id: Id, env: Env): Launcher {
      this.(retry := retry - {id}, lastLaunch := env.now, history := history + [Attempt(id, env.now, true)])
    }

    function TryLaunch(hasActive: bool, hasSessions: bool, env: Env): Launcher {
      if hasActive || !hasSessions || env.candidate.None? || !CanAttempt(env.candidate.value, env.now) then this
      else if !env.starts then MarkFailure(env.candidate.value, env)
      else MarkSuccess(env.candidate.value, env)
    }

    /** `ensureFallbackUiRunning`. */
    function EnsureFallback(hasActive: bool, hasSessions: bool, env: Env): Launcher {
      if hasActive || env.lockHeld || env.now - lastLaunch < LAUNCH_COOLDOWN_MS then this
      else TryLaunch(hasActive, hasSessions, env)
    }
  }

  const NO_LAUNCHES := Launcher(map[], 0, [])

  /** When `id` failed to start, since it last started. */
  function FailuresOf(history: seq<Attempt>, id: Id): seq<int> {
    if history == [] then []
    else
      var rest, a := history[..|history| - 1], history[|history| - 1];
      if a.id != id then FailuresOf(rest, id)
      else if a.launched then []
      else FailuresOf(rest, id) + [a.at]
  }

  function LaunchTimes(history: seq<Attempt>): seq<int> {
    if history == [] then []
    else
      var rest, a := history[..|history| - 1], history[|history| - 1];
      LaunchTimes(rest) + (if a.launched then [a.at] else [])
  }

  /** The gap after the i-th failure is at least the i-th back-off. */
  ghost predicate BackedOff(times: seq<int>) {
    forall i :: 1 <= i < |times| ==> times[i] - times[i - 1] >= Cap(i)
  }

  ghost predicate CooledDown(times: seq<int>) {
    forall i :: 1 <= i < |times| ==> times[i] - times[i - 1] >= LAUNCH_COOLDOWN_MS
  }

  /** The retry table says what the history implies, and the history respects the waits. */
  ghost predicate LauncherInv(l: Launcher) {
    && CooledDown(LaunchTimes(l.history))
    && (LaunchTimes(l.history) != [] ==> l.lastLaunch == LaunchTimes(l.history)[|LaunchTimes(l.history)| - 1])
    && forall id :: RetryInv(l, id)
  }

  ghost predicate RetryInv(l: Launcher, id: Id) {
    var times := FailuresOf(l.history, id);
    && BackedOff(times)
    && (id in l.retry <==> times != [])
    && (id in l.retry ==>
          && l.retry[id].failures == |times|
          && Cap(|times|) <= l.retry[id].nextEligible - times[|times| - 1] <= MAX_BACKOFF_MS + MAX_JITTER_MS)
  }

  lemma AttemptRecorded(history: seq<Attempt>, a: Attempt)
    ensures LaunchTimes(history + [a]) == LaunchTimes(history) + (if a.launched then [a.at] else [])
    ensures forall id :: FailuresOf(history + [a], id) ==
                         if a.id != id then FailuresOf(history, id) else if a.launched then [] else FailuresOf(history, id) + [a.at]
  {
    assert (history + [a])[..|history|] == history;
  }

  lemma FailureKeeps(l: Launcher, c: Id, env: Env, id: Id)
    requires RetryInv(l, id) && l.CanAttempt(c, env.now) && env.jitter <= MAX_JITTER_MS
    ensures RetryInv(l.MarkFailure(c, env), id)
  {
    AttemptRecorded(l.history, Attempt(c, env.now, false));
    CapBound(|FailuresOf(l.history, id)| + 1);
  }

  lemma SuccessKeeps(l: Launcher, c: Id, env: Env, id: Id)
    requires RetryInv(l, id)
    ensures RetryInv(l.MarkSuccess(c, env), id)
  {
    AttemptRecorded(l.history, Attempt(c, env.now, true));
  }

  /** Every call keeps the waits: launches 5 s apart, and retries backed off. */
  lemma EnsureFallbackKeeps(l: Launcher, hasActive: bool, hasSessions: bool, env: Env)
    requires LauncherInv(l) && env.jitter <= MAX_JITTER_MS
    ensures LauncherInv(l.EnsureFallback(hasActive, hasSessions, env))
  {
    var r := l.EnsureFallback(hasActive, hasSessions, env);
    if r != l {
      var c := env.candidate.value;
      AttemptRecorded(l.history, Attempt(c, env.now, env.starts));
      forall id ensures RetryInv(r, id) {
        assert RetryInv(l, id);
        if env.starts {
          SuccessKeeps(l, c, env, id);
        } else {
          FailureKeeps(l, c, env, id);
        }
      }
    }
  }

  /** A launch that is wanted may be made: no other daemon is at it, the last one is five seconds ago, and there is a
      candidate whose back-off, if it has failed since it last started, is over. */
  predicate Due(l: Launcher, env: Env) {
    && !env.lockHeld
    && env.now - l.lastLaunch >= 5000
    && env.candidate.Some?
    && (env.candidate.value in l.retry ==> env.now >= l.retry[env.candidate.value].nextEligible)
  }

  /** A call tries to start the candidate exactly if somebody is needed and the launch is due, and records how it went;
      otherwise it changes nothing. */
  lemma LaunchesWhenDue(l: Launcher, hasActive: bool, hasSessions: bool, env: Env)
    ensures var r := l.EnsureFallback(hasActive, hasSessions, env);
            if !hasActive && hasSessions && Due(l, env) then
              var c := env.candidate.value;
              && r.history == l.history + [Attempt(c, env.now, env.starts)]
              && r.lastLaunch == (if env.starts then env.now else l.lastLaunch)
              && r.retry - {c} == l.retry - {c}
              && (c in r.retry <==> !env.starts)
              && (!env.starts ==> r.retry[c].failures == (if c in l.retry then l.retry[c].failures else 0) + 1
                                  && r.retry[c].nextEligible == env.now + Cap(r.retry[c].failures) + env.jitter)
            else r == l
  {
    var r, c := l.EnsureFallback(hasActive, hasSessions, env), env.candidate;
    if c.Some? {
      assert l.retry - {c.value} - {c.value} == l.retry - {c.value};
      assert r.retry - {c.value} == l.retry - {c.value};
    }
  }

  lemma CapBound(n: nat)
    ensures Cap(n) <= MAX_BACKOFF_MS
    ensures n == 1 ==> Cap(n) == 500
    ensures n == 2 ==> Cap(n) == 1000
    ensures n == 3 ==> Cap(n) == 2000
    ensures n == 4 ==> Cap(n) == 4000
    ensures n >= 5 ==> Cap(n) == MAX_BACKOFF_MS
  {
    ShiftedTable();
    if n >= 8 {
      assert Min(n, 8) == 8;
    }
  }

  lemma ShiftedTable()
    ensures Shifted(250, 1) == 500 && Shifted(250, 2) == 1000 && Shifted(250, 3) == 2000 && Shifted(250, 4) == 4000
    ensures Shifted(250, 5) == 8000 && Shifted(250, 6) == 16000 && Shifted(250, 7) == 32000 && Shifted(250, 8) == 64000
  {
    assert Shifted(250, 2) == 1000;
    assert Shifted(250, 4) == 4000;
    assert Shifted(250, 6) == 16000;
  }

  /** k consecutive failures of one candidate take at least 7500 + 5000 (k - 5) ms. */
  lemma {:induction false} FailuresTakeTime(times: seq<int>)
    requires BackedOff(times) && |times| >= 5
    ensures times[|times| - 1] - times[0] >= 7500 + 5000 * (|times| - 5)
  {
    var n := |times| - 1;
    if |times| == 5 {
      CapBound(1);
      CapBound(2);
      CapBound(3);
      CapBound(4);
    } else {
      CapBound(n);
      FailuresTakeTime(times[..n]);
    }
  }

  /** The launcher object; the cool-down lives with its caller. */
  class ProviderLauncher {
    var retry: map<Id, RetryState>

    constructor ()
      ensures retry == map[]
    {
      retry := map[];
    }

    predicate CanAttempt(id: Id, now: int)
      reads this
    {
      id !in retry || now >= retry[id].nextEligible
    }

    static method ComputeBackoff(failures: nat, jitter: nat) returns (wait: int)
      ensures wait == Cap(failures) + jitter
    {
      var exp := BASE_BACKOFF_MS;
      var shifts := if failures < 8 then failures else 8;
      for i := 0 to shifts
        invariant exp == Shifted(BASE_BACKOFF_MS, i)
      {
        exp := 2 * exp;
      }
      wait := (if exp < MAX_BACKOFF_MS then exp else MAX_BACKOFF_MS) + jitter;
    }

    method MarkFailure(ghost l: Launcher, id: Id, env: Env)
      requires l.retry == retry
      modifies this
      ensures retry == l.MarkFailure(id, env).retry
    {
      var state := if id in retry then retry[id] else RetryState(0, 0);
      var wait := ComputeBackoff(state.failures + 1, env.jitter);
      retry := retry[id := RetryState(state.failures + 1, env.now + wait)];
    }

    method MarkSuccess(id: Id)
      modifies this
      ensures retry == old(retry) - {id}
    {
      retry := retry - {id};
    }

    /** Reports the candidate that was tried, if any, and whether it started. `l` is the launcher's abstract value. */
    method TryLaunch(ghost l: Launcher, hasActive: bool, hasSessions: bool, env: Env) returns (attempted: Option<Id>, launched: bool)
      requires l.retry == retry
      modifies this
      ensures retry == l.TryLaunch(hasActive, hasSessions, env).retry
      ensures l.TryLaunch(hasActive, hasSessions, env) ==
              if attempted.None? then l
              else if launched then l.MarkSuccess(attempted.value, env)
              else l.MarkFailure(attempted.value, env)
      ensures attempted ==
              if !hasActive && hasSessions && env.candidate.Some?
                 && (env.candidate.value in old(retry) ==> env.now >= old(retry)[env.candidate.value].nextEligible)
              then env.candidate else None
      ensures launched == (attempted.Some? && env.starts)
    {
      attempted, launched := None, false;
      if hasActive || !hasSessions || env.candidate.None? {
        return;
      }
      var id := env.candidate.value;
      if !CanAttempt(id, env.now) {
        return;
      }
      attempted := Some(id);
      if !env.starts {
        MarkFailure(l, id, env);
      } else {
        MarkSuccess(id);
        launched := true;
      }
    }
  }
}
