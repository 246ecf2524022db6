/**
 When the deadline of an episode cuts it short: a backoff clamped, or the chain charged with sends left.
 Whether that can happen at all is a question about the settings alone, and it has an exact answer.
 */
module RetryDeadline {
  import opened Wrappers
  import opened RetryDecision
  import opened RetryLoop

  /** An episode that starts with this call. */
  const FRESH: Episode := Episode(0, 0, None)

  /** The clock, read in whole seconds, shows no more than the sleeps and calls so far and one second of rounding. */
  ghost predicate Steady(p: Policy, ep: Episode, w: World)
    requires Drawn(w)
  {
    forall k: nat :: ep.Elapsed(w(k).now) < Waited(p, ep, w, k) + Called(w, k + 1) + NANOS
  }

  /** The deadline got in the way: a backoff was clamped, or the chain was charged with sends left. */
  ghost predicate Cut(p: Policy, w: World, n: nat, exit: Exit)
    requires Drawn(w)
  {
    || (exit.Failover? && n < MaxSends(p))
    || exists k: nat :: k < n && Clamped(p, w, k)
  }

  predicate Clamped(p: Policy, w: World, k: nat)
    requires Drawn(w)
  {
    w(k).answer.Failed? && Verdict(p, FRESH, w, k).Retry? &&
    Verdict(p, FRESH, w, k).after < BackoffSchedule(p, k, w(k).jitter)
  }

  /** A world that can happen, with calls no longer than `call`, in which a fresh episode is cut. */
  ghost predicate CutBy(p: Policy, call: nat, w: World, n: nat, exit: Exit) {
    Drawn(w) && Prompt(w, call) && Steady(p, FRESH, w) && Sent(p, FRESH, w, n, exit) && Cut(p, w, n, exit)
  }

  // ------------------------------------------------------------------ the settings that can be cut

  function CeilSecond(x: nat): nat { (x + NANOS - 1) / NANOS * NANOS }

  lemma CeilIsNear(x: nat)
    ensures x <= CeilSecond(x) < x + NANOS && CeilSecond(x) / NANOS * NANOS == CeilSecond(x)
  {}

  lemma CeilIsLeast(seconds: nat, x: nat)
    requires seconds * NANOS < x + NANOS
    ensures seconds * NANOS <= CeilSecond(x)
  {}

  /** The latest moment the clock can show when turn `k` of a fresh episode is decided. */
  function Latest(p: Policy, call: nat, k: nat): nat {
    CeilSecond(ScheduleSum(p, LONGEST, 0, k) + (k + 1) * call)
  }

  /** Where the wait after turn `k` ends at the latest. */
  function Ends(p: Policy, call: nat, k: nat): nat { Latest(p, call, k) + BackoffSchedule(p, k, LONGEST) }

  /** The settings under which the deadline can cut an episode: its last backoff could end past it. */
  predicate CanBeCut(p: Policy, call: nat) { MaxSends(p) > 1 && Ends(p, call, MaxSends(p) - 2) > p.retryTimeout }

  lemma WaitsAreLong(p: Policy, k: nat)
    ensures BackoffSchedule(p, k, LONGEST) >= LONGEST
  {}

  /** Each next wait ends later. */
  lemma EndsGrow(p: Policy, call: nat, k: nat)
    ensures Ends(p, call, k) <= Ends(p, call, k + 1)
  {
    var x := ScheduleSum(p, LONGEST, 0, k) + (k + 1) * call;
    var y := ScheduleSum(p, LONGEST, 0, k + 1) + (k + 2) * call;
    assert (k + 2) * call == (k + 1) * call + call;
    assert y == x + BackoffSchedule(p, k, LONGEST) + call;
    CeilIsNear(x);
    CeilIsNear(y);
    WaitsAreLong(p, k + 1);
    hide CeilSecond, BackoffSchedule, ScheduleSum;
  }

  lemma {:induction false} EndsBelow(p: Policy, call: nat, k: nat, n: nat)
    requires k <= n
    ensures Ends(p, call, k) <= Ends(p, call, n)
    decreases n
  {
    if k < n {
      EndsBelow(p, call, k, n - 1);
      EndsGrow(p, call, n - 1);
    }
  }

  // ------------------------------------------------------------------ settings that cannot

  lemma DecidedInTime(p: Policy, call: nat, w: World, k: nat)
    requires Drawn(w) && Prompt(w, call) && Steady(p, FRESH, w) && k + 1 < MaxSends(p)
    requires forall j: nat :: j < k ==> GoesAgain(p, FRESH, w, j)
    ensures FRESH.Elapsed(w(k).now) <= Latest(p, call, k)
  {
    hide *;
    SteadyOne(p, w, k);
    WaitsInSchedule(p, FRESH, w, k);
    CallsBounded(w, call, k + 1);
    ShownInTime(
      p, call, k, SaturatingSub(w(k).now, FRESH.started), Waited(p, FRESH, w, k), Called(w, k + 1));
  }

  lemma SteadyOne(p: Policy, w: World, k: nat)
    requires Drawn(w) && Steady(p, FRESH, w)
    ensures FRESH.Elapsed(w(k).now) < Waited(p, FRESH, w, k) + Called(w, k + 1) + NANOS
    ensures FRESH.Elapsed(w(k).now) == SaturatingSub(w(k).now, FRESH.started) * NANOS
    ensures FRESH.attempts == 0 && MaxSends(p) > 0
  { hide Waited, Called; }

  /** Whole seconds shown by a clock that runs at most one second ahead. */
  lemma ShownInTime(p: Policy, call: nat, k: nat, seconds: nat, waited: nat, called: nat)
    requires seconds * NANOS < waited + called + NANOS
    requires waited <= ScheduleSum(p, LONGEST, 0, k) && called <= (k + 1) * call
    ensures seconds * NANOS <= Latest(p, call, k)
  {
    hide CeilSecond, ScheduleSum;
    CeilIsLeast(seconds, ScheduleSum(p, LONGEST, 0, k) + (k + 1) * call);
  }

  /** With the waits all ending in time, a turn is decided by its class and the budget alone. */
  lemma UncutAt(p: Policy, w: World, k: nat)
    requires Drawn(w) && k < MaxSends(p) && w(k).answer.Failed?
    requires k + 1 < MaxSends(p) ==> FRESH.Elapsed(w(k).now) + BackoffSchedule(p, k, LONGEST) <= p.retryTimeout
    ensures !Clamped(p, w, k)
    ensures Verdict(p, FRESH, w, k).Stop? && Verdict(p, FRESH, w, k).kind.ChainExhausted? ==> k + 1 >= MaxSends(p)
  {
    LedgerCounts(FRESH, w, k);
    assert w(k).jitter < RETRY_JITTER_MAX;
    ScheduleBounds(p, k, w(k).jitter, LONGEST);
    WaitsAreLong(p, k);
    hide Decide, BackoffSchedule, Ledger, MaxSends;
    var charged := Ledger(FRESH, w, k).AfterAttempt();
    assert charged.attempts == k + 1 && charged.Elapsed(w(k).now) == FRESH.Elapsed(w(k).now);
    DeadlineOutOfReach(charged, Attempt(Some(w(k).answer.failure), w(k).now, w(k).jitter), p);
  }

  lemma EndsInTime(p: Policy, call: nat, w: World, k: nat)
    requires !CanBeCut(p, call) && k + 1 < MaxSends(p)
    requires Drawn(w) && Prompt(w, call) && Steady(p, FRESH, w)
    requires forall j: nat :: j < k ==> GoesAgain(p, FRESH, w, j)
    ensures FRESH.Elapsed(w(k).now) + BackoffSchedule(p, k, LONGEST) <= p.retryTimeout
  {
    DecidedInTime(p, call, w, k);
    hide GoesAgain, Steady, Prompt, Drawn, Latest, BackoffSchedule;
    EndsBelow(p, call, k, MaxSends(p) - 2);
  }

  lemma NeverCutAt(p: Policy, call: nat, w: World, k: nat)
    requires !CanBeCut(p, call)
    requires Drawn(w) && Prompt(w, call) && Steady(p, FRESH, w) && k < MaxSends(p) && w(k).answer.Failed?
    requires forall j: nat :: j < k ==> GoesAgain(p, FRESH, w, j)
    ensures !Clamped(p, w, k)
    ensures Verdict(p, FRESH, w, k).Stop? && Verdict(p, FRESH, w, k).kind.ChainExhausted? ==> k + 1 >= MaxSends(p)
  {
    hide *;
    if k + 1 < MaxSends(p) { EndsInTime(p, call, w, k); }
    UncutAt(p, w, k);
  }

  lemma NeverCut(p: Policy, call: nat, w: World, n: nat, exit: Exit)
    requires !CanBeCut(p, call)
    requires Drawn(w) && Prompt(w, call) && Steady(p, FRESH, w) && Sent(p, FRESH, w, n, exit)
    ensures !Cut(p, w, n, exit)
  {
    hide *;
    SentSoFar(p, w, n, exit);
    NobodyClamped(p, call, w, n);
    if exit.Failover? { NeverCutAt(p, call, w, n - 1); }
    NotCut(p, w, n, exit);
  }

  lemma NotCut(p: Policy, w: World, n: nat, exit: Exit)
    requires Drawn(w) && (exit.Failover? ==> n >= MaxSends(p)) && forall k: nat :: k < n ==> !Clamped(p, w, k)
    ensures !Cut(p, w, n, exit)
  { hide Clamped, MaxSends; }

  lemma NobodyClamped(p: Policy, call: nat, w: World, n: nat)
    requires !CanBeCut(p, call) && n <= MaxSends(p)
    requires Drawn(w) && Prompt(w, call) && Steady(p, FRESH, w)
    requires forall k: nat :: k + 1 < n ==> GoesAgain(p, FRESH, w, k)
    ensures forall k: nat :: k < n ==> !Clamped(p, w, k)
  {
    hide *;
    forall k: nat | k < n ensures !Clamped(p, w, k) {
      if w(k).answer.Failed? { NeverCutAt(p, call, w, k); } else { NotFailedNotClamped(p, w, k); }
    }
  }

  /** The turns of a call, and the verdict that hands it to the chain. */
  lemma SentSoFar(p: Policy, w: World, n: nat, exit: Exit)
    requires Drawn(w) && Sent(p, FRESH, w, n, exit)
    ensures n <= MaxSends(p) && forall k: nat :: k + 1 < n ==> GoesAgain(p, FRESH, w, k)
    ensures exit.Failover? ==>
              0 < n && w(n - 1).answer.Failed? &&
              Verdict(p, FRESH, w, n - 1).Stop? && Verdict(p, FRESH, w, n - 1).kind.ChainExhausted?
  {
    SendsStayInBudget(p, FRESH, w, n, exit);
    hide Verdict, GoesAgain;
  }

  lemma NotFailedNotClamped(p: Policy, w: World, k: nat)
    requires Drawn(w) && !w(k).answer.Failed?
    ensures !Clamped(p, w, k)
  {}

  // ------------------------------------------------------------------ settings that can

  /** The slowest world: every send fails as slowly as it may, until turn `last`, whose backoff is cancelled. */
  function Slowest(p: Policy, call: nat, last: nat): World {
    (k: nat) => Turn(Failed(Failure(Transient(Server), None, false)), Latest(p, call, if k < last then k else last) / NANOS,
              LONGEST, call, k == last)
  }

  lemma SlowestClock(p: Policy, call: nat, last: nat, k: nat)
    ensures FRESH.Elapsed(Slowest(p, call, last)(k).now) == Latest(p, call, if k < last then k else last)
  {
    var j := if k < last then k else last;
    var x := ScheduleSum(p, LONGEST, 0, j) + (j + 1) * call;
    CeilIsNear(x);
    hide CeilSecond, ScheduleSum;
  }

  lemma SlowestIsDrawn(p: Policy, call: nat, last: nat)
    ensures Drawn(Slowest(p, call, last)) && Prompt(Slowest(p, call, last), call)
  {}

  /** What the slowest world meets at turn `k`, with the budget not spent. */
  lemma SlowVerdict(p: Policy, call: nat, last: nat, k: nat)
    requires k <= last && k + 1 < MaxSends(p)
    ensures Drawn(Slowest(p, call, last))
    ensures
      var v := Verdict(p, FRESH, Slowest(p, call, last), k);
      if Latest(p, call, k) >= p.retryTimeout then v == Stop(ChainExhausted, DeadlineExhausted)
      else v == Retry(Min(BackoffSchedule(p, k, LONGEST), p.retryTimeout - Latest(p, call, k)))
  {
    var w := Slowest(p, call, last);
    SlowestIsDrawn(p, call, last);
    SlowestClock(p, call, last, k);
    LedgerCounts(FRESH, w, k);
    hide Latest, BackoffSchedule, Ledger;
  }

  lemma SlowGoesAgain(p: Policy, call: nat, last: nat, k: nat)
    requires k < last && last + 1 < MaxSends(p) && Ends(p, call, k) <= p.retryTimeout
    ensures Drawn(Slowest(p, call, last)) && GoesAgain(p, FRESH, Slowest(p, call, last), k)
    ensures Verdict(p, FRESH, Slowest(p, call, last), k) == Retry(BackoffSchedule(p, k, LONGEST))
  {
    SlowestIsDrawn(p, call, last);
    SlowVerdict(p, call, last, k);
    WaitsAreLong(p, k);
    hide Verdict, Latest, BackoffSchedule;
  }

  /** Before the first wait that could end too late, every backoff is slept whole. */
  lemma {:induction false} SlowWaits(p: Policy, call: nat, last: nat, n: nat)
    requires n <= last && last + 1 < MaxSends(p) && forall k: nat :: k < last ==> Ends(p, call, k) <= p.retryTimeout
    ensures Drawn(Slowest(p, call, last))
    ensures Waited(p, FRESH, Slowest(p, call, last), n) == ScheduleSum(p, LONGEST, 0, n)
    ensures forall k: nat :: k < n ==> GoesAgain(p, FRESH, Slowest(p, call, last), k)
  {
    SlowestIsDrawn(p, call, last);
    hide Verdict, Ends, BackoffSchedule, GoesAgain;
    if n > 0 {
      SlowWaits(p, call, last, n - 1);
      SlowGoesAgain(p, call, last, n - 1);
    }
  }

  lemma {:induction false} SlowCalls(p: Policy, call: nat, last: nat, n: nat)
    ensures Called(Slowest(p, call, last), n) == n * call
  {
    if n > 0 { SlowCalls(p, call, last, n - 1); }
  }

  lemma {:induction false} WaitedGrows(p: Policy, w: World, n: nat, m: nat)
    requires Drawn(w) && n <= m
    ensures Waited(p, FRESH, w, n) <= Waited(p, FRESH, w, m)
    decreases m
  {
    hide Verdict;
    if n < m { WaitedGrows(p, w, n, m - 1); }
  }

  lemma SteadyAt(p: Policy, call: nat, last: nat, k: nat)
    requires last + 1 < MaxSends(p) && forall k: nat :: k < last ==> Ends(p, call, k) <= p.retryTimeout
    ensures Drawn(Slowest(p, call, last))
    ensures
      var w := Slowest(p, call, last);
      FRESH.Elapsed(w(k).now) < Waited(p, FRESH, w, k) + Called(w, k + 1) + NANOS
  {
    var j := if k < last then k else last;
    SlowestIsDrawn(p, call, last);
    hide *;
    var w := Slowest(p, call, last);
    SlowestClock(p, call, last, k);
    LatestIsNear(p, call, j);
    SlowWaits(p, call, last, j);
    WaitedGrows(p, w, j, k);
    SlowCalls(p, call, last, k + 1);
    CallsGrow(call, j, k);
  }

  lemma LatestIsNear(p: Policy, call: nat, k: nat)
    ensures Latest(p, call, k) < ScheduleSum(p, LONGEST, 0, k) + (k + 1) * call + NANOS
  { CeilIsNear(ScheduleSum(p, LONGEST, 0, k) + (k + 1) * call); }

  lemma CallsGrow(call: nat, j: nat, k: nat)
    requires j <= k
    ensures (j + 1) * call <= (k + 1) * call
  {}

  lemma SlowestIsSteady(p: Policy, call: nat, last: nat)
    requires last + 1 < MaxSends(p) && forall k: nat :: k < last ==> Ends(p, call, k) <= p.retryTimeout
    ensures Drawn(Slowest(p, call, last)) && Steady(p, FRESH, Slowest(p, call, last))
  {
    SlowestIsDrawn(p, call, last);
    var w := Slowest(p, call, last);
    hide Slowest, Waited, Called;
    forall k: nat ensures FRESH.Elapsed(w(k).now) < Waited(p, FRESH, w, k) + Called(w, k + 1) + NANOS {
      SteadyAt(p, call, last, k);
    }
  }

  lemma {:induction false} FirstLate(p: Policy, call: nat, n: nat) returns (first: nat)
    requires Ends(p, call, n) > p.retryTimeout
    ensures first <= n && Ends(p, call, first) > p.retryTimeout
    ensures forall k: nat :: k < first ==> Ends(p, call, k) <= p.retryTimeout
  {
    hide Ends;
    first := 0;
    while first < n && Ends(p, call, first) <= p.retryTimeout
      invariant first <= n && forall k: nat :: k < first ==> Ends(p, call, k) <= p.retryTimeout
    {
      first := first + 1;
    }
  }

  /** At the first late turn the deadline either ends the episode or clamps the backoff. */
  lemma LateTurn(p: Policy, call: nat, last: nat)
    requires last + 1 < MaxSends(p) && Ends(p, call, last) > p.retryTimeout
    ensures Drawn(Slowest(p, call, last)) && !GoesAgain(p, FRESH, Slowest(p, call, last), last)
    ensures
      var w := Slowest(p, call, last);
      if Verdict(p, FRESH, w, last).Retry? then Clamped(p, w, last) else ExitOf(p, FRESH, w, last).Failover?
  {
    SlowestIsDrawn(p, call, last);
    SlowVerdict(p, call, last, last);
    var w := Slowest(p, call, last);
    assert w(last) == Turn(Failed(Failure(Transient(Server), None, false)), w(last).now, LONGEST, call, true);
    hide Verdict, Latest, BackoffSchedule, Slowest;
  }

  lemma SlowestIsCut(p: Policy, call: nat) returns (w: World, n: nat, exit: Exit)
    requires CanBeCut(p, call)
    ensures CutBy(p, call, w, n, exit)
  {
    var last := FirstLate(p, call, MaxSends(p) - 2);
    w, n := Slowest(p, call, last), last + 1;
    SlowestIsDrawn(p, call, last);
    SlowestIsSteady(p, call, last);
    SlowWaits(p, call, last, last);
    LateTurn(p, call, last);
    hide Verdict, Ends, BackoffSchedule, Slowest, Steady, CanBeCut, GoesAgain, Clamped, Waited, ExitOf, Drawn, Prompt;
    exit := ExitOf(p, FRESH, w, last);
  }

  // ------------------------------------------------------------------ the exact condition

  /**
   For every policy and every bound on the length of a call: some world that can happen cuts a fresh episode by its
   deadline if and only if the last backoff of the schedule could end past it.
   */
  lemma CutExactly(p: Policy, call: nat)
    ensures CanBeCut(p, call) <==> exists w, n, exit :: CutBy(p, call, w, n, exit)
  {
    hide CanBeCut;
    if CanBeCut(p, call) {
      var w, n, exit := SlowestIsCut(p, call);
    } else {
      forall w, n, exit | CutBy(p, call, w, n, exit) ensures false { NeverCut(p, call, w, n, exit); }
    }
  }

  // ------------------------------------------------------------------ the startup check

  /** The startup check's silent verdict, in whole seconds. */
  predicate Fits(p: Policy) { WorstCase(p) / NANOS <= p.retryTimeout / NANOS }

  lemma SameSecond(a: nat, b: nat)
    requires a / NANOS <= b / NANOS
    ensures a < b + NANOS
  {}

  lemma Unsaturated(p: Policy)
    requires WorstCase(p) < DURATION_MAX
    ensures WorstCase(p) == ScheduleSum(p, RETRY_JITTER_MAX, 0, p.maxRetries) + MaxSends(p) * CALL_WORST_ASSUMED
  { hide ScheduleSum, MaxSends; }

  lemma RetriesLeft(p: Policy)
    requires MaxSends(p) > 1
    ensures MaxSends(p) - 1 <= p.maxRetries
  {}

  lemma SpareCall(m: nat)
    requires 1 < m
    ensures (m - 1) * CALL_WORST_ASSUMED + 60 * NANOS == m * CALL_WORST_ASSUMED
  {}

  /** The waits up to the last backoff, as drawn, stay inside the whole schedule at full jitter. */
  lemma DrawnInside(p: Policy, k: nat)
    requires k + 1 <= p.maxRetries
    ensures ScheduleSum(p, LONGEST, 0, k) + BackoffSchedule(p, k, LONGEST) <= ScheduleSum(p, RETRY_JITTER_MAX, 0, p.maxRetries)
  {
    hide BackoffSchedule;
    DrawnSum(p, 0, k + 1);
    SumGrows(p, RETRY_JITTER_MAX, 0, k + 1, p.maxRetries);
  }

  /** A budget that fits leaves the last backoff room. */
  lemma LastWaitFits(p: Policy)
    requires Fits(p) && WorstCase(p) < DURATION_MAX && MaxSends(p) > 1
    ensures Ends(p, CALL_WORST_ASSUMED, MaxSends(p) - 2) <= p.retryTimeout
  {
    var k, schedule := MaxSends(p) - 2, ScheduleSum(p, RETRY_JITTER_MAX, 0, p.maxRetries);
    hide *;
    FitsMeans(p);
    RetriesLeft(p);
    DrawnInside(p, k);
    LatestIsNear(p, CALL_WORST_ASSUMED, k);
    SpareCall(MaxSends(p));
    RoomToSpare(
      Latest(p, CALL_WORST_ASSUMED, k), ScheduleSum(p, LONGEST, 0, k), BackoffSchedule(p, k, LONGEST),
      schedule, (k + 1) * CALL_WORST_ASSUMED, MaxSends(p) * CALL_WORST_ASSUMED, p.retryTimeout);
    EndsIs(p, k);
  }

  lemma FitsMeans(p: Policy)
    requires Fits(p) && WorstCase(p) < DURATION_MAX
    ensures ScheduleSum(p, RETRY_JITTER_MAX, 0, p.maxRetries) + MaxSends(p) * CALL_WORST_ASSUMED < p.retryTimeout + NANOS
  {
    Unsaturated(p);
    SameSecond(WorstCase(p), p.retryTimeout);
    hide *;
  }

  lemma EndsIs(p: Policy, k: nat)
    ensures Ends(p, CALL_WORST_ASSUMED, k) == Latest(p, CALL_WORST_ASSUMED, k) + BackoffSchedule(p, k, LONGEST)
  {}

  lemma RoomToSpare(latest: nat, waits: nat, last: nat, schedule: nat, calls: nat, allCalls: nat, timeout: nat)
    requires latest < waits + calls + NANOS && waits + last <= schedule && calls + 60 * NANOS == allCalls
    requires schedule + allCalls < timeout + NANOS
    ensures latest + last <= timeout
  {}

  /**
   When the startup check is silent and its estimate did not saturate, no call of the assumed length can be cut by
   the deadline: no backoff is clamped, and the chain is charged only after every send of the budget.
   */
  lemma SilentCheckNeverCuts(p: Policy)
    requires Fits(p) && WorstCase(p) < DURATION_MAX
    ensures !CanBeCut(p, CALL_WORST_ASSUMED)
    ensures !exists w, n, exit :: CutBy(p, CALL_WORST_ASSUMED, w, n, exit)
  {
    if MaxSends(p) > 1 { LastWaitFits(p); }
    hide CutBy, Fits, WorstCase, Ends;
    CutExactly(p, CALL_WORST_ASSUMED);
  }

  // ------------------------------------------------------------------ the shipped settings

  /** A schedule whose waits alone overrun the deadline can be cut however short the calls are. */
  lemma WaitsAloneCut(p: Policy, call: nat)
    requires MaxSends(p) > 1 && ScheduleSum(p, LONGEST, 0, MaxSends(p) - 1) > p.retryTimeout
    ensures CanBeCut(p, call)
  {
    var k := MaxSends(p) - 2;
    assert ScheduleSum(p, LONGEST, 0, k + 1) == ScheduleSum(p, LONGEST, 0, k) + BackoffSchedule(p, k, LONGEST);
    LatestIsLate(p, call, k);
    hide BackoffSchedule, ScheduleSum, MaxSends, Latest;
  }

  lemma LatestIsLate(p: Policy, call: nat, k: nat)
    ensures ScheduleSum(p, LONGEST, 0, k) <= Latest(p, call, k)
  {
    assert (k + 1) * call >= 0;
    CeilIsNear(ScheduleSum(p, LONGEST, 0, k) + (k + 1) * call);
    hide CeilSecond, ScheduleSum;
  }

  /** Ten retries from one second up to a minute, five minutes in all. */
  const FACTORY: Policy := Policy(10, 1 * NANOS, 60 * NANOS, 300 * NANOS)

  lemma FactoryWait(exponent: nat)
    requires exponent < 10
    ensures BackoffSchedule(FACTORY, exponent, LONGEST) ==
            (if exponent < 6 then Pow2(exponent) * NANOS else 60 * NANOS) + LONGEST
  {
    if exponent >= 6 { Pow2Monotone(6, exponent); }
    Pow2Monotone(exponent, 10);
    assert Pow2(4) == 16;
    assert Pow2(6) == 64;
    assert Pow2(10) == 1024;
  }

  lemma FactorySix()
    ensures ScheduleSum(FACTORY, LONGEST, 0, 6) == 63 * NANOS + 6 * LONGEST
  {
    hide BackoffSchedule;
    FactoryWait(0);
    FactoryWait(1);
    FactoryWait(2);
    FactoryWait(3);
    FactoryWait(4);
    FactoryWait(5);
    assert Pow2(3) == 8;
    assert Pow2(5) == 32;
    assert ScheduleSum(FACTORY, LONGEST, 0, 2) == 3 * NANOS + 2 * LONGEST;
    assert ScheduleSum(FACTORY, LONGEST, 0, 4) == 15 * NANOS + 4 * LONGEST;
  }

  lemma FactorySum()
    ensures ScheduleSum(FACTORY, LONGEST, 0, 10) == 303 * NANOS + 10 * LONGEST
  {
    hide BackoffSchedule;
    FactorySix();
    FactoryWait(6);
    FactoryWait(7);
    FactoryWait(8);
    FactoryWait(9);
    assert ScheduleSum(FACTORY, LONGEST, 0, 8) == 183 * NANOS + 8 * LONGEST;
  }

  /** The shipped settings are cut by their own deadline in some world that can happen, whatever bound the calls keep to. */
  lemma FactoryIsCut(call: nat)
    ensures CanBeCut(FACTORY, call) && exists w, n, exit :: CutBy(FACTORY, call, w, n, exit)
  {
    FactorySum();
    hide ScheduleSum, CutBy;
    WaitsAloneCut(FACTORY, call);
    hide CanBeCut;
    CutExactly(FACTORY, call);
  }

  /** The check is cautious: it reports three retries in 200 seconds, which no call of the assumed length can be cut by. */
  lemma CheckIsCautious()
    ensures
      var p := FACTORY.(maxRetries := 3, retryTimeout := 200 * NANOS);
      !Fits(p) && !CanBeCut(p, CALL_WORST_ASSUMED)
  {
    var p := FACTORY.(maxRetries := 3, retryTimeout := 200 * NANOS);
    ThreeWait(0);
    ThreeWait(1);
    ThreeWait(2);
    hide BackoffSchedule;
    assert ScheduleSum(p, LONGEST, 0, 2) == 3 * NANOS + 2 * LONGEST;
    CeilIsNear(ScheduleSum(p, LONGEST, 0, 2) + 3 * CALL_WORST_ASSUMED);
    assert WorstCase(p) >= 4 * CALL_WORST_ASSUMED;
  }

  lemma ThreeWait(exponent: nat)
    requires exponent < 3
    ensures
      var p := FACTORY.(maxRetries := 3, retryTimeout := 200 * NANOS);
      BackoffSchedule(p, exponent, LONGEST) == (if exponent == 0 then 1 else if exponent == 1 then 2 else 4) * NANOS + LONGEST
  {
    FactoryWait(exponent);
    assert Pow2(2) == 4;
  }
}
