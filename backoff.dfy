/*
 * The join-attempt backoff: how long the manager waits before the next
 * steering attempt, given how many attempts it has already scheduled.
 */
module Backoff {
  import opened ConnTypes

  /** The compile-time knobs of the join/rejoin state machine. */
  datatype Config = Config(maxRejoinAttempts: nat, rejoinBackoffS: nat, maxRejoinBackoffS: nat)

  /** The ranges the configuration header allows for each knob. */
  predicate InAnnotatedRanges(c: Config)
  {
    1 <= c.maxRejoinAttempts <= 100 &&
    1 <= c.rejoinBackoffS <= 20 &&
    100 <= c.maxRejoinBackoffS <= 3600
  }

  /** The values the configuration header ships with. */
  const DefaultConfig := Config(1, 5, 1800)

  /** Largest value of a 32-bit C `int`. */
  const IntMax: nat := 0x7FFF_FFFF

  function Pow2(n: nat): (r: nat)
    ensures r >= 1
  {
    if n == 0 then 1 else 2 * Pow2(n - 1)
  }

  lemma {:induction false} Pow2Monotone(m: nat, n: nat)
    requires m <= n
    ensures Pow2(m) <= Pow2(n)
  {
    if m < n {
      Pow2Monotone(m, n - 1);
    }
  }

  /** How many times the base delay has doubled by this attempt:
      once every three attempts. */
  function Doublings(attempt: nat): (k: nat)
    requires attempt >= 1
  {
    (attempt - 1) / 3
  }

  /** Seconds to wait before the next steering attempt when `attempt`
      attempts were already scheduled: the base delay doubled every three
      attempts, but never more than the ceiling. */
  function BackoffSeconds(c: Config, attempt: nat): (r: nat)
    requires attempt >= 1
    ensures r <= c.maxRejoinBackoffS
    ensures c.rejoinBackoffS <= c.maxRejoinBackoffS ==> c.rejoinBackoffS <= r
  {
    var delay := c.rejoinBackoffS * Pow2(Doublings(attempt));
    if delay < c.maxRejoinBackoffS then delay else c.maxRejoinBackoffS
  }

  /** An independent statement of the backoff rule: the first three
      attempts wait the base delay, and each later one twice what the attempt
      three before it waited, capped at the ceiling. */
  function BackoffByDoubling(c: Config, attempt: nat): (r: nat)
    requires attempt >= 1
    decreases attempt
  {
    if attempt <= 3 then Min(c.rejoinBackoffS, c.maxRejoinBackoffS)
    else Min(2 * BackoffByDoubling(c, attempt - 3), c.maxRejoinBackoffS)
  }

  function Min(a: nat, b: nat): (m: nat)
  {
    if a < b then a else b
  }

  lemma {:induction false} BackoffMatchesDoubling(c: Config, attempt: nat)
    requires attempt >= 1
    ensures BackoffSeconds(c, attempt) == BackoffByDoubling(c, attempt)
  {
    if attempt > 3 {
      BackoffMatchesDoubling(c, attempt - 3);
      var k := Doublings(attempt - 3);
      assert Doublings(attempt) == k + 1;
      MulTwice(c.rejoinBackoffS, Pow2(k));
    }
  }

  /** A later attempt never waits less than an earlier one. */
  lemma BackoffMonotone(c: Config, a: nat, b: nat)
    requires 1 <= a <= b
    ensures BackoffSeconds(c, a) <= BackoffSeconds(c, b)
  {
    Pow2Monotone(Doublings(a), Doublings(b));
    MulMonotone(c.rejoinBackoffS, Pow2(Doublings(a)), Pow2(Doublings(b)));
  }

  lemma MulTwice(k: nat, x: nat)
    ensures k * (2 * x) == 2 * (k * x)
  {
  }

  lemma MulMonotone(k: nat, x: nat, y: nat)
    requires x <= y
    ensures k * x <= k * y
  {
  }

  /** Within the annotated ranges the ceiling is reached by the 37th
      attempt at the latest: from then on every wait is the ceiling. */
  lemma BackoffReachesCeiling(c: Config, attempt: nat)
    requires InAnnotatedRanges(c) && attempt >= 37
    ensures BackoffSeconds(c, attempt) == c.maxRejoinBackoffS
  {
    Pow2Monotone(12, Doublings(attempt));
    assert Pow2(12) == 4096;
    MulMonotone(c.rejoinBackoffS, 1, Pow2(Doublings(attempt)));
  }

  /** The trigger `networkHandlerAttemptToJoin` arms when `attempt`
      attempts were already scheduled and the limit is not reached: at once
      for the first attempt, after the backoff (in milliseconds) for later ones. */
  function NextJoinTrigger(c: Config, attempt: nat): (t: Trigger)
    requires InAnnotatedRanges(c)
    ensures t.Immediate? <==> attempt == 0
    ensures t.Delayed? <==> attempt >= 1
    ensures t.Delayed? ==> 1000 * c.rejoinBackoffS <= t.ms <= 1000 * c.maxRejoinBackoffS
  {
    if attempt == 0 then Immediate else Delayed(1000 * BackoffSeconds(c, attempt))
  }

  /** Scheduled delays grow with the attempt count. */
  lemma NextJoinTriggerMonotone(c: Config, a: nat, b: nat)
    requires InAnnotatedRanges(c) && 1 <= a <= b
    ensures NextJoinTrigger(c, a).ms <= NextJoinTrigger(c, b).ms
  {
    BackoffMonotone(c, a, b);
  }

  /** The shipped configuration: one retry after five seconds. */
  lemma DefaultConfigSchedule()
    ensures InAnnotatedRanges(DefaultConfig)
    ensures NextJoinTrigger(DefaultConfig, 0) == Immediate
    ensures NextJoinTrigger(DefaultConfig, 1) == Delayed(5000)
  {
  }

  // The source computes the delay as the C expression
  // `REJOIN_BACKOFF_S << (joinAttempt - 1) / 3`, whose operands are `int`.

  /** C defines `x << n` on a non-negative 32-bit `int` only when the shift
      count is below 32 and x * 2^n still fits in an `int`. */
  predicate ShiftDefined(x: nat, n: nat)
  {
    n < 32 && x * Pow2(n) <= IntMax
  }

  /** Every configuration inside the annotated ranges whose attempt limit
      is at most 81 keeps the shift defined for every attempt that reaches
      it; the shipped limit of 1 is far inside that. */
  lemma ShiftDefinedUpTo81(c: Config, attempt: nat)
    requires InAnnotatedRanges(c) && 1 <= attempt <= 81
    ensures ShiftDefined(c.rejoinBackoffS, Doublings(attempt))
  {
    Pow2Monotone(Doublings(attempt), 26);
    assert Pow2(13) == 0x2000;
    assert Pow2(26) == 0x400_0000;
    MulMonotone(c.rejoinBackoffS, Pow2(Doublings(attempt)), Pow2(26));
    MulMonotone(Pow2(26), c.rejoinBackoffS, 20);
  }

  /** With the knobs inside their annotated ranges (100 attempts, a 5 second
      base) the 97th attempt passes the attempt limit and then shifts by 32,
      which C leaves undefined. */
  lemma ShiftUndefinedWithinRanges()
    ensures InAnnotatedRanges(Config(100, 5, 1800))
    ensures 97 <= Config(100, 5, 1800).maxRejoinAttempts
    ensures !ShiftDefined(5, Doublings(97))
  {
  }
}
