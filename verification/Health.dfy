/** The healthcheck stage: a poll bounded by the clock, and the cap that sits outside it. */
module Health {
  import opened Wrappers
  import opened Specs
  import Render

  /** What one attempt would do if it were left alone: how long it takes, and how it ends. */
  datatype Verdict = Healthy | Unhealthy | Broken

  datatype Attempt = Attempt(duration: nat, verdict: Verdict)

  datatype Outcome = Passed | TimedOut | Errored

  // Milliseconds.
  const HEALTH_BUDGET: nat := 60_000
  const HEALTH_INTERVAL: nat := 2_000
  const HEALTH_ATTEMPT_TIMEOUT: nat := Render.HEALTH_ATTEMPT_TIMEOUT
  const HEALTHCHECK_STAGE_CAP: nat := 90_000

  /** What an attempt costs under the per-attempt timeout. */
  function Cost(a: Attempt, timeout: nat): nat {
    if a.duration > timeout then timeout else a.duration
  }

  /** An attempt cut by its timeout is a failed one, not the end of the stage. */
  function Seen(a: Attempt, timeout: nat): Verdict {
    if a.duration > timeout then Unhealthy else a.verdict
  }

  /** When attempt `k` starts, if the poll gets that far. */
  function StartOf(attempts: nat -> Attempt, timeout: nat, interval: nat, k: nat): nat {
    if k == 0 then 0 else StartOf(attempts, timeout, interval, k - 1) + Cost(attempts(k - 1), timeout) + interval
  }

  function CeilDiv(a: nat, b: nat): nat
    requires b > 0
  {
    (a + b - 1) / b
  }

  lemma {:induction false} StartsAreApart(attempts: nat -> Attempt, timeout: nat, interval: nat, k: nat)
    ensures StartOf(attempts, timeout, interval, k) >= k * interval
  {
    if k > 0 {
      StartsAreApart(attempts, timeout, interval, k - 1);
      assert k * interval == (k - 1) * interval + interval;
    }
  }

  /** Starting before the budget is up bounds which attempt this can be. */
  lemma CountIsBounded(budget: nat, interval: nat, k: nat)
    requires interval > 0 && k * interval < budget
    ensures k + 1 <= CeilDiv(budget, interval)
  {
    var q, n := CeilDiv(budget, interval), budget + interval - 1;
    assert n < (q + 1) * interval;
    assert (k + 1) * interval == k * interval + interval;
  }

  /** Attempt `k` fails inside the budget and leaves room for another. */
  ghost predicate Continues(attempts: nat -> Attempt, timeout: nat, interval: nat, budget: nat, k: nat) {
    && Seen(attempts(k), timeout) == Unhealthy
    && StartOf(attempts, timeout, interval, k) + Cost(attempts(k), timeout) < budget
    && StartOf(attempts, timeout, interval, k + 1) < budget
  }

  /**
   * Poll until an attempt passes or errors, or the budget is up. For any attempt durations and
   * verdicts it ends in time, after a bounded number of attempts, and with the verdict of the first
   * decisive attempt that started in time.
   */
  method PollHealth(attempts: nat -> Attempt, budget: nat, interval: nat, timeout: nat)
    returns (r: Outcome, clock: nat, count: nat)
    requires interval > 0
    ensures clock <= budget + (if timeout > interval then timeout else interval)
    ensures 1 <= count && (count == 1 || count <= CeilDiv(budget, interval))
    ensures forall k | 0 <= k < count - 1 :: Continues(attempts, timeout, interval, budget, k)
    ensures r == Passed <==> Seen(attempts(count - 1), timeout) == Healthy
    ensures r == Errored <==> Seen(attempts(count - 1), timeout) == Broken
    ensures r == TimedOut ==> clock >= budget && !Continues(attempts, timeout, interval, budget, count - 1)
    ensures r != TimedOut ==> clock == StartOf(attempts, timeout, interval, count - 1) + Cost(attempts(count - 1),
              timeout)
  {
    clock, count := 0, 0;
    while true
      invariant clock == StartOf(attempts, timeout, interval, count)
      invariant count > 0 ==> clock < budget
      invariant forall k | 0 <= k < count :: Continues(attempts, timeout, interval, budget, k)
      decreases if clock < budget then budget - clock else 0
    {
      var attempt := attempts(count);
      StartsAreApart(attempts, timeout, interval, count);
      if count > 0 {
        CountIsBounded(budget, interval, count);
      }
      clock := clock + Cost(attempt, timeout);
      count := count + 1;
      match Seen(attempt, timeout) {
        case Broken => return Errored, clock, count;
        case Healthy => return Passed, clock, count;
        case Unhealthy =>
      }
      if clock >= budget {
        break;
      }
      clock := clock + interval;
      if clock >= budget {
        break;
      }
    }
    return TimedOut, clock, count;
  }

  /** Attempt `k` decides the poll: every one before it failed with time left, and it ends the way it does. */
  ghost predicate DecidedAt(attempts: nat -> Attempt, timeout: nat, interval: nat, budget: nat, k: nat, v: Verdict) {
    && Seen(attempts(k), timeout) == v
    && forall j | 0 <= j < k :: Continues(attempts, timeout, interval, budget, j)
  }

  /** No two attempts decide a poll. */
  lemma DecidedOnce(attempts: nat -> Attempt, timeout: nat, interval: nat, budget: nat, k: nat, v: Verdict, m: nat,
      w: Verdict)
    requires DecidedAt(attempts, timeout, interval, budget, k, v)
    requires DecidedAt(attempts, timeout, interval, budget, m, w)
    requires v != Unhealthy || !Continues(attempts, timeout, interval, budget, k)
    requires w != Unhealthy || !Continues(attempts, timeout, interval, budget, m)
    ensures k == m && v == w
  {
    assert k < m ==> Continues(attempts, timeout, interval, budget, k);
    assert m < k ==> Continues(attempts, timeout, interval, budget, m);
  }

  /**
   * Whatever has a health command, and so whatever has a route, is checked by its container; and read back
   * from the unit, the limit podman is given is the one a poll's attempt is cut at.
   */
  lemma OneTimeout(spec: WorkloadSpec)
    requires ValidSpec(spec) && (spec.healthCmd.Some? || spec.route.Some?)
    ensures var unit := Render.ReadUnit(Render.RenderUnit(spec));
            && unit.Some? && unit.value.healthCmd.Some? && unit.value.healthCmd == spec.healthCmd
            && unit.value.healthTimeout == Some(HEALTH_ATTEMPT_TIMEOUT)
  {
    Render.UnitRoundTrip(spec);
  }

  /**
   * With the real constants the stage cap never cuts a poll short, and the stage passes exactly when some
   * attempt passes before any errors and before the budget is up.
   */
  method Healthcheck(healthCmd: Option<string>, attempts: nat -> Attempt, isActive: Attempt)
      returns (r: Outcome, capped: bool)
    ensures healthCmd.Some? ==> !capped
    ensures healthCmd.None? ==> (capped <==> isActive.duration > HEALTHCHECK_STAGE_CAP)
    ensures healthCmd.None? && !capped ==> (r == Passed <==> isActive.verdict == Healthy)
    ensures healthCmd.None? && r != Passed ==> r == Errored
    ensures healthCmd.Some? ==> (r == Passed <==> exists k: nat ::
              DecidedAt(attempts, HEALTH_ATTEMPT_TIMEOUT, HEALTH_INTERVAL, HEALTH_BUDGET, k, Healthy))
    ensures healthCmd.Some? ==> (r == Errored <==> exists k: nat ::
              DecidedAt(attempts, HEALTH_ATTEMPT_TIMEOUT, HEALTH_INTERVAL, HEALTH_BUDGET, k, Broken))
  {
    if healthCmd.Some? {
      var clock, count;
      r, clock, count := PollHealth(attempts, HEALTH_BUDGET, HEALTH_INTERVAL, HEALTH_ATTEMPT_TIMEOUT);
      capped := clock > HEALTHCHECK_STAGE_CAP;
      ghost var m: nat, w := count - 1, Seen(attempts(count - 1), HEALTH_ATTEMPT_TIMEOUT);
      assert DecidedAt(attempts, HEALTH_ATTEMPT_TIMEOUT, HEALTH_INTERVAL, HEALTH_BUDGET, m, w);
      forall k: nat, v | v != Unhealthy
          && DecidedAt(attempts, HEALTH_ATTEMPT_TIMEOUT, HEALTH_INTERVAL, HEALTH_BUDGET, k, v)
        ensures v == w
      {
        DecidedOnce(attempts, HEALTH_ATTEMPT_TIMEOUT, HEALTH_INTERVAL, HEALTH_BUDGET, k, v, m, w);
      }
    } else {
      capped := isActive.duration > HEALTHCHECK_STAGE_CAP;
      r := if capped then Errored else if isActive.verdict == Healthy then Passed else Errored;
    }
  }
}
