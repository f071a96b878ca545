/** The Phase 6 cost budget, and what it bounds over a whole session of submissions. */
module Phase6Budget {

  const PAID_JOBS_ALREADY_SUBMITTED: int := 5
  const PLANNED_PAID_JOBS: int := 2
  const DIAGNOSTIC_RETRIES: int := 0
  const MAXIMUM_PAID_JOBS: int := 7
  const IDLE_SECONDS_PER_JOB: int := 5
  const MAXIMUM_JOB_EXECUTION_SECONDS: int := 600
  const MAXIMUM_OBSERVED_WORKERS_PER_JOB: int := 2
  const RATE_TOLERANCE: real := 0.000000001

  /** The fields a caller may choose; the others are the constants above. */
  datatype Budget = Budget(
    startingBalance: real, incurredSpend: real, ratePerHour: real, ratePerSecond: real,
    expectedColdStart: int, worstColdStart: int, expectedBootstrap: int, expectedValidation: int,
    diskCost: real, normalCost: real, worstCost: real, hardMaximum: real)

  function Abs(x: real): real {
    if x < 0.0 then -x else x
  }

  /** The bounds declared on the single fields. */
  predicate FieldsInRange(b: Budget) {
    && b.startingBalance >= 0.0 && b.incurredSpend >= 0.0 && b.ratePerHour > 0.0 && b.ratePerSecond > 0.0
    && 0 <= b.expectedColdStart <= 1200 && 0 <= b.worstColdStart <= 1800
    && 0 < b.expectedBootstrap <= 600 && 0 < b.expectedValidation <= 600
    && b.diskCost >= 0.0 && b.normalCost >= 0.0 && b.worstCost >= 0.0 && 0.0 < b.hardMaximum <= 2.0
  }

  function CostBySecond(b: Budget, seconds: real): real {
    seconds * b.ratePerSecond
  }

  function NormalSeconds(b: Budget): int {
    (b.expectedColdStart * PLANNED_PAID_JOBS + b.expectedBootstrap + b.expectedValidation
     + IDLE_SECONDS_PER_JOB * PLANNED_PAID_JOBS) * MAXIMUM_OBSERVED_WORKERS_PER_JOB
  }

  function MinimumNormalCost(b: Budget): real {
    CostBySecond(b, NormalSeconds(b) as real) + b.diskCost + b.incurredSpend
  }

  function WorstSeconds(b: Budget): int {
    (MAXIMUM_PAID_JOBS - PAID_JOBS_ALREADY_SUBMITTED)
    * (b.worstColdStart + MAXIMUM_JOB_EXECUTION_SECONDS + IDLE_SECONDS_PER_JOB) * MAXIMUM_OBSERVED_WORKERS_PER_JOB
  }

  function MinimumWorstCost(b: Budget): real {
    CostBySecond(b, WorstSeconds(b) as real) + b.diskCost + b.incurredSpend
  }

  /** `validate_budget`, after the field bounds. */
  predicate ValidBudget(b: Budget) {
    && FieldsInRange(b)
    && Abs(b.ratePerHour / 3600.0 - b.ratePerSecond) <= RATE_TOLERANCE
    && PAID_JOBS_ALREADY_SUBMITTED + PLANNED_PAID_JOBS + DIAGNOSTIC_RETRIES == MAXIMUM_PAID_JOBS
    && b.worstColdStart >= b.expectedColdStart
    && b.normalCost >= MinimumNormalCost(b)
    && b.worstCost >= MinimumWorstCost(b)
    && b.normalCost <= b.worstCost
    && b.worstCost <= b.hardMaximum
    && b.startingBalance >= b.worstCost - b.incurredSpend
  }

  /** One budget that is valid, and one change for every reason to reject it. */
  lemma OneBudgetDecided()
    ensures var b := Budget(10.0, 0.01, 0.72, 0.0002, 120, 300, 120, 180, 0.01, 0.40, 0.75, 2.0);
      && ValidBudget(b) && ValidBudget(b.(normalCost := 0.24)) && !ValidBudget(b.(normalCost := 0.239))
      && ValidBudget(b.(worstCost := 0.744)) && !ValidBudget(b.(worstCost := 0.743))
      && !ValidBudget(b.(worstCost := 2.01)) && !ValidBudget(b.(ratePerHour := 0.69))
      && ValidBudget(b.(startingBalance := 0.74)) && !ValidBudget(b.(startingBalance := 0.739))
      && !ValidBudget(b.(worstColdStart := 119)) && !ValidBudget(b.(incurredSpend := 0.50))
      && !ValidBudget(b.(normalCost := 0.80)) && !ValidBudget(b.(hardMaximum := 0.74))
  {
  }

  lemma TimesRate(x: real, y: real, rate: real)
    requires x <= y && rate >= 0.0
    ensures x * rate <= y * rate
  {
    assert y * rate - x * rate == (y - x) * rate;
  }

  lemma CostGrows(b: Budget, x: real, y: real)
    requires x <= y && b.ratePerSecond >= 0.0
    ensures CostBySecond(b, x) <= CostBySecond(b, y)
  {
    TimesRate(x, y, b.ratePerSecond);
  }

  /** The derived normal minimum never exceeds the derived worst-case minimum. */
  lemma NormalWithinWorst(b: Budget)
    requires FieldsInRange(b) && b.worstColdStart >= b.expectedColdStart
    ensures MinimumNormalCost(b) <= MinimumWorstCost(b)
  {
    CostGrows(b, NormalSeconds(b) as real, WorstSeconds(b) as real);
  }

  // ---------------------------------------------------------------- sessions

  /** The seconds that one worker is billed for. */
  datatype Worker = Worker(coldStart: real, execution: real, idle: real)

  predicate WorkerWithin(b: Budget, w: Worker) {
    && 0.0 <= w.coldStart <= b.worstColdStart as real
    && 0.0 <= w.execution <= MAXIMUM_JOB_EXECUTION_SECONDS as real
    && 0.0 <= w.idle <= IDLE_SECONDS_PER_JOB as real
  }

  predicate JobWithin(b: Budget, workers: seq<Worker>) {
    |workers| <= MAXIMUM_OBSERVED_WORKERS_PER_JOB && forall w :: w in workers ==> WorkerWithin(b, w)
  }

  function BilledSeconds(workers: seq<Worker>): real {
    if workers == [] then 0.0
    else workers[0].coldStart + workers[0].execution + workers[0].idle + BilledSeconds(workers[1..])
  }

  /** The gate of `submit_approved` on the job counter. */
  predicate CounterAdmits(counter: int) {
    PAID_JOBS_ALREADY_SUBMITTED <= counter < MAXIMUM_PAID_JOBS
  }

  /** One attempt: what its other checks say, and how the job would run if it is submitted. */
  datatype Attempt = Attempt(authorized: bool, operationMatches: bool, workers: seq<Worker>)

  predicate GateOpens(authorized: bool, operationMatches: bool, counter: int) {
    authorized && operationMatches && CounterAdmits(counter)
  }

  /** `counter` is truthful: it grows by one with every job handed to the transport. */
  datatype Session = Session(counter: int, seconds: real)

  function Advance(s: Session, a: Attempt): Session {
    if GateOpens(a.authorized, a.operationMatches, s.counter)
    then Session(s.counter + 1, s.seconds + BilledSeconds(a.workers))
    else s
  }

  function RunSession(s: Session, attempts: seq<Attempt>): Session {
    if attempts == [] then s
    else Advance(RunSession(s, attempts[..|attempts| - 1]), attempts[|attempts| - 1])
  }

  function CostByHour(b: Budget, seconds: real): real {
    seconds * (b.ratePerHour / 3600.0)
  }

  predicate AttemptsWithin(b: Budget, attempts: seq<Attempt>) {
    forall a :: a in attempts ==> JobWithin(b, a.workers)
  }

  function SecondsPerWorker(b: Budget): int {
    b.worstColdStart + MAXIMUM_JOB_EXECUTION_SECONDS + IDLE_SECONDS_PER_JOB
  }

  lemma {:induction false} JobSeconds(b: Budget, workers: seq<Worker>)
    requires forall w :: w in workers ==> WorkerWithin(b, w)
    ensures 0.0 <= BilledSeconds(workers) <= (|workers| * SecondsPerWorker(b)) as real
  {
    if workers != [] {
      assert workers[0] in workers;
      JobSeconds(b, workers[1..]);
      assert |workers| * SecondsPerWorker(b) == SecondsPerWorker(b) + |workers[1..]| * SecondsPerWorker(b);
    }
  }

  /** However many attempts are made, at most two more jobs go out, within their share of seconds. */
  lemma {:induction false} SessionBounded(b: Budget, start: Session, attempts: seq<Attempt>)
    requires FieldsInRange(b) && AttemptsWithin(b, attempts)
    requires start.counter >= PAID_JOBS_ALREADY_SUBMITTED && start.seconds == 0.0
    ensures var s := RunSession(start, attempts);
      && start.counter <= s.counter && (s.counter > start.counter ==> s.counter <= MAXIMUM_PAID_JOBS)
      && 0.0 <= s.seconds <=
            ((s.counter - start.counter) * MAXIMUM_OBSERVED_WORKERS_PER_JOB * SecondsPerWorker(b)) as real
  {
    if attempts != [] {
      var before, last := attempts[..|attempts| - 1], attempts[|attempts| - 1];
      SessionBounded(b, start, before);
      assert last in attempts;
      JobSeconds(b, last.workers);
      var c, n := RunSession(start, before).counter - start.counter, SecondsPerWorker(b);
      assert |last.workers| * n <= 2 * n;
      assert (c + 1) * MAXIMUM_OBSERVED_WORKERS_PER_JOB * n == c * MAXIMUM_OBSERVED_WORKERS_PER_JOB * n + 2 * n;
    }
  }

  lemma SessionWithinWorst(b: Budget, start: Session, attempts: seq<Attempt>)
    requires FieldsInRange(b) && AttemptsWithin(b, attempts)
    requires start.counter >= PAID_JOBS_ALREADY_SUBMITTED && start.seconds == 0.0
    ensures var s := RunSession(start, attempts);
      s.counter - start.counter <= 2 && 0.0 <= s.seconds <= WorstSeconds(b) as real && WorstSeconds(b) <= 9620
  {
    SessionBounded(b, start, attempts);
    var s := RunSession(start, attempts);
    var jobs := s.counter - start.counter;
    assert jobs == 0 || jobs == 1 || jobs == 2;
    assert jobs * MAXIMUM_OBSERVED_WORKERS_PER_JOB * SecondsPerWorker(b) <= WorstSeconds(b);
  }

  lemma MoneyBound(b: Budget, seconds: real, disk: real)
    requires ValidBudget(b) && 0.0 <= seconds <= WorstSeconds(b) as real && 0.0 <= disk <= b.diskCost
    ensures b.incurredSpend + CostBySecond(b, seconds) + disk <= b.worstCost
    ensures b.startingBalance - CostBySecond(b, seconds) - disk >= 0.0
  {
    CostGrows(b, seconds, WorstSeconds(b) as real);
    assert MinimumWorstCost(b) <= b.worstCost;
  }

  /**
   * Over every session that starts at or above the approved baseline with a validated budget,
   * the money spent before and during it stays within the worst-case estimate, hence within
   * the cap, and the balance never goes negative. `disk` is what container disks really cost.
   */
  lemma SpendBound(b: Budget, start: Session, attempts: seq<Attempt>, disk: real)
    requires ValidBudget(b) && AttemptsWithin(b, attempts) && 0.0 <= disk <= b.diskCost
    requires start.counter >= PAID_JOBS_ALREADY_SUBMITTED && start.seconds == 0.0
    ensures var s := RunSession(start, attempts);
      && s.counter - start.counter <= 2
      && b.incurredSpend + CostBySecond(b, s.seconds) + disk <= b.worstCost <= b.hardMaximum <= 2.0
      && b.startingBalance - CostBySecond(b, s.seconds) - disk >= 0.0
  {
    SessionWithinWorst(b, start, attempts);
    MoneyBound(b, RunSession(start, attempts).seconds, disk);
  }

  /** A product of two bounded factors is bounded, on both sides. */
  lemma GapBound(seconds: real, most: real, gap: real, tolerance: real)
    requires 0.0 <= seconds <= most && -tolerance <= gap <= tolerance
    ensures -(most * tolerance) <= seconds * gap <= most * tolerance
  {
    assert (tolerance - gap) * seconds >= 0.0;
    assert (tolerance + gap) * seconds >= 0.0;
    assert (most - seconds) * tolerance >= 0.0;
  }

  lemma Distributes(seconds: real, r: real, q: real)
    ensures seconds * r - seconds * q == seconds * (r - q)
  {
  }

  lemma RateGap(b: Budget, seconds: real)
    requires ValidBudget(b) && 0.0 <= seconds <= 9620.0
    ensures Abs(CostByHour(b, seconds) - CostBySecond(b, seconds)) <= 9620.0 * RATE_TOLERANCE
  {
    var r, q := b.ratePerHour / 3600.0, b.ratePerSecond;
    GapBound(seconds, 9620.0, r - q, RATE_TOLERANCE);
    Distributes(seconds, r, q);
  }

  /** Billing by the hour instead moves the total of a session by at most 9620 x 10^-9. */
  lemma HourlyBillingIsClose(b: Budget, start: Session, attempts: seq<Attempt>)
    requires ValidBudget(b) && AttemptsWithin(b, attempts)
    requires start.counter >= PAID_JOBS_ALREADY_SUBMITTED && start.seconds == 0.0
    ensures var s := RunSession(start, attempts);
      Abs(CostByHour(b, s.seconds) - CostBySecond(b, s.seconds)) <= 9620.0 * RATE_TOLERANCE
  {
    SessionWithinWorst(b, start, attempts);
    RateGap(b, RunSession(start, attempts).seconds);
  }

  // ---------------------------------------------------------------- tightness

  /** The bounds are reached: a session at the limits spends the whole worst-case minimum. */
  lemma WorstCaseIsReached(b: Budget)
    requires ValidBudget(b)
    ensures exists attempts :: && AttemptsWithin(b, attempts)
                               && RunSession(Session(PAID_JOBS_ALREADY_SUBMITTED, 0.0), attempts).seconds ==
                                     WorstSeconds(b) as real
  {
    var w := Worker(b.worstColdStart as real, 600.0, 5.0);
    var a := Attempt(true, true, [w, w]);
    var attempts := [a, a];
    var start := Session(PAID_JOBS_ALREADY_SUBMITTED, 0.0);
    assert [w, w][1..] == [w] && [w][1..] == [];
    assert BilledSeconds([w]) == b.worstColdStart as real + 605.0;
    assert attempts[..1] == [a] && [a][..0] == [];
    assert RunSession(start, [a]) == Advance(start, a);
    assert RunSession(start, attempts) == Advance(Advance(start, a), a);
    assert AttemptsWithin(b, attempts);
  }

  /** What the normal minimum is for: both planned jobs as expected, on both workers. */
  lemma PlannedSessionIsNormal(b: Budget)
    requires ValidBudget(b)
    ensures var bootstrap := Worker(b.expectedColdStart as real, b.expectedBootstrap as real, 5.0);
      var validation := Worker(b.expectedColdStart as real, b.expectedValidation as real, 5.0);
      var attempts := [Attempt(true, true, [bootstrap, bootstrap]), Attempt(true, true, [validation, validation])];
      && AttemptsWithin(b, attempts)
      && RunSession(Session(5, 0.0), attempts) == Session(7, NormalSeconds(b) as real)
  {
    var v := Worker(b.expectedColdStart as real, b.expectedBootstrap as real, 5.0);
    var w := Worker(b.expectedColdStart as real, b.expectedValidation as real, 5.0);
    var c, a := Attempt(true, true, [v, v]), Attempt(true, true, [w, w]);
    var start := Session(5, 0.0);
    assert [v, v][1..] == [v] && [v][1..] == [] && [w, w][1..] == [w] && [w][1..] == [];
    assert BilledSeconds([v]) == (b.expectedColdStart + b.expectedBootstrap + 5) as real;
    assert BilledSeconds([w]) == (b.expectedColdStart + b.expectedValidation + 5) as real;
    assert [c, a][..1] == [c] && [c][..0] == [];
    assert RunSession(start, [c]) == Advance(start, c);
    assert RunSession(start, [c, a]) == Advance(Advance(start, c), a);
  }
}
