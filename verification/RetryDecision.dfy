/**
 The retry core: the ledger of one episode and the one table that reads it. Durations are
 nanoseconds; the saturating operations of the standard duration type are written out.
 */
module RetryDecision {
  import opened Wrappers

  const U32_MAX: nat := 0xFFFF_FFFF
  const NANOS: nat := 1_000_000_000
  /** The largest duration: a 64-bit count of seconds and a nanosecond part. */
  const DURATION_MAX: nat := 0xFFFF_FFFF_FFFF_FFFF * NANOS + (NANOS - 1)
  const RETRY_JITTER_MAX: nat := NANOS
  const CALL_WORST_ASSUMED: nat := 60 * NANOS
  const THROTTLE_SENDS_ALLOWED: nat := 2
  const SHAPE_REPEAT_ALLOWED: nat := 1

  type U32 = n: nat | n <= U32_MAX
  type Duration = n: nat | n <= DURATION_MAX

  function Min(a: nat, b: nat): nat { if a <= b then a else b }

  function SaturatingSub(a: nat, b: nat): nat { if a <= b then 0 else a - b }

  function SaturatingAdd(a: Duration, b: Duration): Duration { Min(a + b, DURATION_MAX) }

  function SaturatingMul(a: Duration, n: U32): Duration { Min(a * n, DURATION_MAX) }

  datatype Policy = Policy(maxRetries: U32, baseDelay: Duration, maxDelay: Duration, retryTimeout: Duration)

  datatype TransientKind = Transport | Timeout | Server | Truncated

  datatype FailureClass =
    | Transient(kind: TransientKind)
    | QuotaBlocked
    | Throttled
    | EndpointPermanent
    | RequestPermanent
    | LocalConfig
    | ResponseShape
    | Unclassified

  datatype ShapeKey =
    | BodyStructure | FrameStructure | NotUtf8 | OversizedBody | MalformedResponse | StatusRejected(status: nat)

  /** What the classifier read off an error: its class, its shape key, and whether the answer was a 402. */
  datatype Failure = Failure(class_: FailureClass, shape: Option<ShapeKey>, payment: bool)

  datatype RetryKind = TransportRetry | TimeoutRetry | ServerRetry | RateLimitRetry

  function RetryKindOf(c: FailureClass): Option<RetryKind> {
    match c
    case Transient(Transport) | Transient(Truncated) => Some(TransportRetry)
    case Transient(Timeout) => Some(TimeoutRetry)
    case Transient(Server) => Some(ServerRetry)
    case QuotaBlocked | Throttled => Some(RateLimitRetry)
    case ResponseShape => Some(TransportRetry)
    case EndpointPermanent | RequestPermanent | LocalConfig | Unclassified => None
  }

  datatype BlockKind = Quota | Payment | EndpointAuth | EndpointShape {
    predicate ParksTheRound() { Quota? || Payment? }
  }

  /** The kind of fact a settled failure leaves behind. */
  function FactOf(f: Failure): Option<BlockKind> {
    match f.class_
    case QuotaBlocked => Some(if f.payment then Payment else Quota)
    case Throttled => Some(Quota)
    case EndpointPermanent => Some(EndpointAuth)
    case ResponseShape => Some(EndpointShape)
    case Transient(_) | RequestPermanent | LocalConfig | Unclassified => None
  }

  /** Which settled failures park the round, and what each leaves behind. */
  lemma BlocksByClass(f: Failure)
    ensures FactOf(f).Some? && FactOf(f).value.ParksTheRound() <==> f.class_.QuotaBlocked? || f.class_.Throttled?
    ensures FactOf(f) == Some(Payment) <==> f.class_.QuotaBlocked? && f.payment
    ensures FactOf(f) == Some(EndpointAuth) <==> f.class_.EndpointPermanent?
    ensures FactOf(f) == Some(EndpointShape) <==> f.class_.ResponseShape?
    ensures FactOf(f).None? <==>
            f.class_.Transient? || f.class_.RequestPermanent? || f.class_.LocalConfig? || f.class_.Unclassified?
  {}

  // ------------------------------------------------------------------ the ledger

  datatype Episode = Episode(attempts: U32, started: nat, previousShape: Option<ShapeKey>) {
    /** Charge one send. */
    function AfterAttempt(): Episode { this.(attempts := if attempts < U32_MAX then attempts + 1 else U32_MAX) }

    function ShapeFailed(key: ShapeKey): Episode { this.(previousShape := Some(key)) }

    /** Time on trial: a clock that ran backwards counts as none. */
    function Elapsed(now: nat): nat { SaturatingSub(now, started) * NANOS }
  }

  /** Total sends one episode allows, saturating. */
  function MaxSends(p: Policy): U32 { if p.maxRetries < U32_MAX then p.maxRetries + 1 else U32_MAX }

  function Pow2(n: nat): nat { if n == 0 then 1 else 2 * Pow2(n - 1) }

  lemma {:induction false} Pow2Monotone(n: nat, m: nat)
    requires n <= m
    ensures Pow2(n) <= Pow2(m)
    decreases m
  {
    if n < m { Pow2Monotone(n, m - 1); }
  }

  lemma Pow2Ten(n: nat)
    ensures Pow2(n + 10) == 1024 * Pow2(n)
  {
    assert Pow2(n + 2) == 4 * Pow2(n);
    assert Pow2(n + 4) == 16 * Pow2(n);
    assert Pow2(n + 6) == 64 * Pow2(n);
    assert Pow2(n + 8) == 256 * Pow2(n);
  }

  lemma Pow2Fits(n: nat)
    requires n < 32
    ensures Pow2(n) <= U32_MAX
  {
    Pow2Monotone(n, 31);
    Pow2Ten(21);
    Pow2Ten(11);
    Pow2Ten(1);
  }

  /** A 32-bit one shifted left: past the width, the largest value. */
  function Factor(exponent: nat): U32 {
    if exponent < 32 then Pow2Fits(exponent); Pow2(exponent) else U32_MAX
  }

  function BackoffSchedule(p: Policy, exponent: nat, jitter: Duration): Duration {
    SaturatingAdd(Min(SaturatingMul(p.baseDelay, Factor(exponent)), p.maxDelay), jitter)
  }

  /** More jitter never shortens a wait, and no wait passes the cap plus its jitter. */
  lemma ScheduleBounds(p: Policy, exponent: nat, jitter: Duration, more: Duration)
    requires jitter <= more
    ensures BackoffSchedule(p, exponent, jitter) <= BackoffSchedule(p, exponent, more) <= p.maxDelay + more
  {}

  /** The schedule opens at the base delay and doubles up to the cap; the jitter comes on top of that. */
  lemma ScheduleDoubles(p: Policy, exponent: nat, jitter: Duration)
    ensures BackoffSchedule(p, 0, 0) == Min(p.baseDelay, p.maxDelay)
    ensures exponent + 1 < 32 ==>
              BackoffSchedule(p, exponent + 1, 0) == Min(2 * BackoffSchedule(p, exponent, 0), p.maxDelay)
    ensures exponent >= 32 ==> BackoffSchedule(p, exponent, 0) == Min(p.baseDelay * 0xFFFF_FFFF, p.maxDelay)
    ensures BackoffSchedule(p, exponent, jitter) == Min(BackoffSchedule(p, exponent, 0) + jitter, DURATION_MAX)
  {
    assert Factor(0) == 1;
    if exponent + 1 < 32 {
      assert Factor(exponent + 1) == 2 * Factor(exponent);
      Doubled(p.baseDelay, Factor(exponent));
      hide Factor;
    }
  }

  lemma Doubled(a: nat, n: nat)
    ensures a * (2 * n) == 2 * (a * n)
  {}

  // ------------------------------------------------------------------ the verdict

  datatype StopKind = ChainExhausted | ExternalOnly

  datatype Reason = BudgetExhausted | DeadlineExhausted | ByClass(class_: FailureClass) | ShapeUnidentified

  datatype Decision =
    | Proceed
    | Retry(after: nat)
    | AdvanceFailover(reason: Reason)
    | Stop(kind: StopKind, reason: Reason)
    | Fatal(reason: Reason)

  /** What one attempt brings to the table: no failure is the reading before a send. */
  datatype Attempt = Attempt(failure: Option<Failure>, now: nat, jitter: Duration)

  function ShapeSendsAllowed(previous: Option<ShapeKey>, key: ShapeKey): nat {
    SaturatingSub(SHAPE_REPEAT_ALLOWED, if previous == Some(key) then 1 else 0)
  }

  function RetryOrStop(ep: Episode, a: Attempt, p: Policy): Decision {
    if ep.attempts >= MaxSends(p) then Stop(ChainExhausted, BudgetExhausted)
    else if ep.Elapsed(a.now) >= p.retryTimeout then Stop(ChainExhausted, DeadlineExhausted)
    else
      var exponent := SaturatingSub(ep.attempts, 1);
      Retry(Min(BackoffSchedule(p, exponent, a.jitter), SaturatingSub(p.retryTimeout, ep.Elapsed(a.now))))
  }

  function ByClassRow(ep: Episode, f: Failure, a: Attempt, p: Policy): Decision {
    match f.class_
    case Transient(_) => RetryOrStop(ep, a, p)
    case ResponseShape =>
      if f.shape.None? then AdvanceFailover(ShapeUnidentified)
      else if ShapeSendsAllowed(ep.previousShape, f.shape.value) > 0 then RetryOrStop(ep, a, p)
      else AdvanceFailover(ByClass(f.class_))
    case Throttled =>
      if ep.attempts < Min(THROTTLE_SENDS_ALLOWED, MaxSends(p)) then RetryOrStop(ep, a, p)
      else AdvanceFailover(ByClass(f.class_))
    case QuotaBlocked | EndpointPermanent => AdvanceFailover(ByClass(f.class_))
    case LocalConfig => Stop(ExternalOnly, ByClass(f.class_))
    case RequestPermanent | Unclassified => Fatal(ByClass(f.class_))
  }

  /** One verdict per attempt: the budget before a send, the class rows after a failure. */
  function Decide(ep: Episode, a: Attempt, p: Policy): Decision {
    if a.failure.None? then
      if ep.attempts >= MaxSends(p) then Stop(ChainExhausted, BudgetExhausted) else Proceed
    else ByClassRow(ep, a.failure.value, a, p)
  }

  /** A retry is granted only inside the budget and the deadline, its wait ends by the deadline, and its class has a record. */
  lemma RetryIsAffordable(ep: Episode, a: Attempt, p: Policy)
    requires Decide(ep, a, p).Retry?
    ensures
      var after := Decide(ep, a, p).after;
      && ep.attempts < MaxSends(p)
      && ep.Elapsed(a.now) + after <= p.retryTimeout
      && after <= BackoffSchedule(p, SaturatingSub(ep.attempts, 1), a.jitter)
      && (after < BackoffSchedule(p, SaturatingSub(ep.attempts, 1), a.jitter) ==> ep.Elapsed(a.now) + after == p.retryTimeout)
      && a.failure.Some? && RetryKindOf(a.failure.value.class_).Some?
      && (a.failure.value.class_.Throttled? ==> ep.attempts < THROTTLE_SENDS_ALLOWED)
      && (a.failure.value.class_.ResponseShape? ==>
            a.failure.value.shape.Some? && ep.previousShape != a.failure.value.shape)
  {}

  /** With the deadline far enough off, only the budget ends a retry row, and its wait is the schedule's own. */
  lemma DeadlineOutOfReach(ep: Episode, a: Attempt, p: Policy)
    requires a.failure.Some? && 0 < ep.attempts
    requires ep.attempts < MaxSends(p) ==>
               ep.Elapsed(a.now) + BackoffSchedule(p, ep.attempts - 1, a.jitter) <= p.retryTimeout
    requires ep.attempts < MaxSends(p) ==> ep.Elapsed(a.now) < p.retryTimeout
    ensures Decide(ep, a, p).Stop? && Decide(ep, a, p).kind.ChainExhausted? ==> ep.attempts >= MaxSends(p)
    ensures Decide(ep, a, p).Retry? ==> Decide(ep, a, p).after == BackoffSchedule(p, ep.attempts - 1, a.jitter)
  {}

  /** Before a send only the ledger speaks. */
  lemma PreSend(ep: Episode, now: nat, p: Policy)
    ensures Decide(ep, Attempt(None, now, 0), p).Proceed? <==> ep.attempts < MaxSends(p)
  {}
}
