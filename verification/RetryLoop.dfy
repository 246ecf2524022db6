/**
 The send loop of one call, and what the worst-case estimate says about it.

 The world is an oracle: turn `k` is what the k-th send of this call meets. `Sent` says,
 without the loop, how many sends a call makes and how it leaves; the loop is proved to do
 exactly that, and the theorems are about `Sent`.
 */
module RetryLoop {
  import opened Wrappers
  import opened RetryDecision

  datatype Answer = Opened | Failed(failure: Failure)

  /** One send: its answer, the clock and jitter read after it, its length, and whether its backoff was cut. */
  datatype Turn = Turn(answer: Answer, now: nat, jitter: nat, call: nat, cancelled: bool)

  type World = nat -> Turn

  datatype Record =
    | Retried(attempt: nat, kind: RetryKind, delay: nat)
    | Observed(attempt: nat, kind: RetryKind)

  datatype Exit =
    | Stream
    | SpentBudget
    | Failover(failure: Failure)
    | Switch(failure: Failure, block: Option<BlockKind>)
    | Stopped(failure: Failure)
    | FatalExit(failure: Failure)
    | Cancelled

  // ------------------------------------------------------------------ what a call does

  /** The drawn jitter stays under its cap. */
  ghost predicate Drawn(w: World) { forall k: nat :: w(k).jitter < RETRY_JITTER_MAX }

  function Spend(ep: Episode, f: Failure): Episode {
    match f.shape
    case Some(key) => ep.ShapeFailed(key)
    case None => ep
  }

  /** The ledger before turn `k`, when every turn before it was retried. */
  function Ledger(ep: Episode, w: World, k: nat): Episode {
    if k == 0 then ep
    else
      var charged := Ledger(ep, w, k - 1).AfterAttempt();
      if w(k - 1).answer.Failed? then Spend(charged, w(k - 1).answer.failure) else charged
  }

  function Verdict(p: Policy, ep: Episode, w: World, k: nat): Decision
    requires Drawn(w) && w(k).answer.Failed?
  {
    assert w(k).jitter < RETRY_JITTER_MAX;
    Decide(Ledger(ep, w, k).AfterAttempt(), Attempt(Some(w(k).answer.failure), w(k).now, w(k).jitter), p)
  }

  /** Turn `k` ends in a completed backoff. */
  predicate GoesAgain(p: Policy, ep: Episode, w: World, k: nat)
    requires Drawn(w)
  {
    w(k).answer.Failed? && Verdict(p, ep, w, k).Retry? && !w(k).cancelled
  }

  function ExitOf(p: Policy, ep: Episode, w: World, k: nat): Exit
    requires Drawn(w)
  {
    match w(k).answer
    case Opened => Stream
    case Failed(f) =>
      match Verdict(p, ep, w, k)
      case Retry(_) => Cancelled
      case AdvanceFailover(_) => Switch(f, FactOf(f))
      case Stop(ExternalOnly, _) => Stopped(f)
      case Stop(ChainExhausted, _) => Failover(f)
      case Fatal(_) | Proceed => FatalExit(f)
  }

  /** A call on this ledger makes `n` sends and leaves through `exit`. */
  ghost predicate Sent(p: Policy, ep: Episode, w: World, n: nat, exit: Exit)
    requires Drawn(w)
  {
    if ep.attempts >= MaxSends(p) then n == 0 && exit == SpentBudget
    else
      && n > 0
      && (forall k: nat :: k < n - 1 ==> GoesAgain(p, ep, w, k))
      && !GoesAgain(p, ep, w, n - 1)
      && exit == ExitOf(p, ep, w, n - 1)
  }

  /** The record of the completed backoff after turn `k`. */
  function RecordOf(p: Policy, ep: Episode, w: World, k: nat): Record
    requires Drawn(w) && GoesAgain(p, ep, w, k)
  {
    var kind := RetryKindOf(w(k).answer.failure.class_).UnwrapOr(TransportRetry);
    Retried(ep.attempts + k + 1, kind, Verdict(p, ep, w, k).after)
  }

  function Backoffs(p: Policy, ep: Episode, w: World, n: nat): seq<Record>
    requires Drawn(w) && forall k: nat :: k < n ==> GoesAgain(p, ep, w, k)
  {
    seq(n, k requires 0 <= k < n => assert GoesAgain(p, ep, w, k); RecordOf(p, ep, w, k))
  }

  /** The one observation a switch of a parking kind leaves. */
  function Observation(exit: Exit, attempt: nat): seq<Record> {
    match exit
    case Switch(f, Some(block)) =>
      if block.ParksTheRound() && RetryKindOf(f.class_).Some? then [Observed(attempt, RetryKindOf(f.class_).value)] else []
    case _ => []
  }

  // ------------------------------------------------------------------ the loop

  /**
   stream_with_retry. `completed` counts the backoffs slept to their end. The loop ends by
   itself: the ledger is charged before every send and bounds them.
   */
  method StreamWithRetry(p: Policy, ep: Episode, w: World, log: seq<Record>)
    returns (exit: Exit, episode: Episode, retryLog: seq<Record>, sends: nat)
    requires Drawn(w)
    ensures Sent(p, ep, w, sends, exit)
    ensures episode.attempts == ep.attempts + sends && episode.started == ep.started
    ensures episode.previousShape ==
            if sends == 0 then ep.previousShape
            else if exit.Cancelled? then Ledger(ep, w, sends).previousShape
            else Ledger(ep, w, sends - 1).previousShape
    ensures sends == 0 ==> retryLog == log
    ensures sends > 0 ==> retryLog == log + Backoffs(p, ep, w, sends - 1) + Observation(exit, ep.attempts + sends)
  {
    hide Decide;
    episode, retryLog, sends := ep, log, 0;
    while true
      invariant forall k: nat :: k < sends ==> GoesAgain(p, ep, w, k)
      invariant episode == Ledger(ep, w, sends)
      invariant episode.attempts == ep.attempts + sends && episode.started == ep.started
      invariant sends > 0 ==> episode.attempts < MaxSends(p)
      invariant retryLog == log + Backoffs(p, ep, w, sends)
      decreases MaxSends(p) - episode.attempts
    {
      var preSend := Attempt(None, 0, 0);
      PreSend(episode, 0, p);
      if Decide(episode, preSend, p) != Proceed {
        return SpentBudget, episode, retryLog, sends;
      }
      episode := episode.AfterAttempt();
      sends := sends + 1;
      var turn := w(sends - 1);
      if turn.answer.Opened? {
        return Stream, episode, retryLog, sends;
      }
      var f := turn.answer.failure;
      var attempt := Attempt(Some(f), turn.now, turn.jitter);
      var verdict := Decide(episode, attempt, p);
      assert verdict == Verdict(p, ep, w, sends - 1);
      match verdict
      case Proceed => return FatalExit(f), episode, retryLog, sends;
      case Retry(after) =>
        RetryIsAffordable(episode, attempt, p);
        var kind := RetryKindOf(f.class_);
        if kind.None? { return FatalExit(f), episode, retryLog, sends; }
        var record := Retried(episode.attempts, kind.value, after);
        episode := Spend(episode, f);
        if turn.cancelled { return Cancelled, episode, retryLog, sends; }
        retryLog := retryLog + [record];
      case AdvanceFailover(_) =>
        var fact := FactOf(f);
        var kind := RetryKindOf(f.class_);
        if fact.Some? && fact.value.ParksTheRound() && kind.Some? {
          retryLog := retryLog + [Observed(episode.attempts, kind.value)];
        }
        return Switch(f, fact), episode, retryLog, sends;
      case Stop(ExternalOnly, _) => return Stopped(f), episode, retryLog, sends;
      case Stop(ChainExhausted, _) => return Failover(f), episode, retryLog, sends;
      case Fatal(_) => return FatalExit(f), episode, retryLog, sends;
    }
  }

  // ------------------------------------------------------------------ what every call keeps

  lemma {:induction false} LedgerCounts(ep: Episode, w: World, k: nat)
    requires ep.attempts + k <= U32_MAX
    ensures Ledger(ep, w, k).attempts == ep.attempts + k && Ledger(ep, w, k).started == ep.started
  {
    if k > 0 { LedgerCounts(ep, w, k - 1); }
  }

  /** A retry after turn `k` leaves room for one more send. */
  lemma {:induction false} RetriedInside(p: Policy, ep: Episode, w: World, k: nat)
    requires Drawn(w) && ep.attempts < MaxSends(p)
    requires forall j: nat :: j < k ==> GoesAgain(p, ep, w, j)
    requires GoesAgain(p, ep, w, k) || (w(k).answer.Failed? && Verdict(p, ep, w, k).Retry?)
    ensures ep.attempts + k + 1 < MaxSends(p)
    ensures Ledger(ep, w, k).AfterAttempt().attempts == ep.attempts + k + 1
    ensures RetryKindOf(w(k).answer.failure.class_).Some?
  {
    if k > 0 { RetriedInside(p, ep, w, k - 1); }
    LedgerCounts(ep, w, k);
    hide Decide;
    assert w(k).jitter < RETRY_JITTER_MAX;
    RetryIsAffordable(
      Ledger(ep, w, k).AfterAttempt(), Attempt(Some(w(k).answer.failure), w(k).now, w(k).jitter), p);
  }

  /** However the world answers, an episode's sends stay inside its budget, and a call with budget left sends. */
  lemma SendsStayInBudget(p: Policy, ep: Episode, w: World, n: nat, exit: Exit)
    requires Drawn(w) && Sent(p, ep, w, n, exit)
    ensures ep.attempts < MaxSends(p) ==> 0 < n && ep.attempts + n <= MaxSends(p)
    ensures exit.SpentBudget? <==> n == 0
    ensures exit.Cancelled? <==> n > 0 && w(n - 1).answer.Failed? && Verdict(p, ep, w, n - 1).Retry?
  {
    if n > 1 { RetriedInside(p, ep, w, n - 2); }
  }

  /** The sends and the exit of a call are settled by its ledger and the world alone. */
  lemma SentIsUnique(p: Policy, ep: Episode, w: World, n: nat, exit: Exit, m: nat, other: Exit)
    requires Drawn(w) && Sent(p, ep, w, n, exit) && Sent(p, ep, w, m, other)
    ensures n == m && exit == other
  {
    if ep.attempts < MaxSends(p) {
      var last: nat, otherLast: nat := n - 1, m - 1;
      assert !GoesAgain(p, ep, w, last) && !GoesAgain(p, ep, w, otherLast);
    }
  }

  // ------------------------------------------------------------------ repeats

  /** The shape the retried turns before `k` spent last. */
  function LastShape(ep: Episode, w: World, k: nat): Option<ShapeKey> {
    if k == 0 then ep.previousShape
    else if w(k - 1).answer.Failed? && w(k - 1).answer.failure.shape.Some? then w(k - 1).answer.failure.shape
    else LastShape(ep, w, k - 1)
  }

  lemma {:induction false} LedgerRemembers(ep: Episode, w: World, k: nat)
    ensures Ledger(ep, w, k).previousShape == LastShape(ep, w, k)
  {
    if k > 0 { LedgerRemembers(ep, w, k - 1); }
  }

  /** A shape that failed last is not sent for again, and a throttle is sent for again only on the episode's first send. */
  lemma RepeatsAreCut(p: Policy, ep: Episode, w: World, n: nat, exit: Exit, k: nat)
    requires Drawn(w) && Sent(p, ep, w, n, exit) && k < n - 1
    ensures w(k).answer.Failed?
    ensures
      var f := w(k).answer.failure;
      && (f.class_.ResponseShape? ==> f.shape.Some? && f.shape != LastShape(ep, w, k))
      && (f.class_.Throttled? ==> ep.attempts == 0 && k == 0)
      && !f.class_.QuotaBlocked? && !f.class_.EndpointPermanent? && !f.class_.RequestPermanent?
      && !f.class_.LocalConfig? && !f.class_.Unclassified?
  {
    assert GoesAgain(p, ep, w, k);
    RetriedInside(p, ep, w, k);
    LedgerRemembers(ep, w, k);
    hide Decide;
    assert w(k).jitter < RETRY_JITTER_MAX;
    RetryIsAffordable(
      Ledger(ep, w, k).AfterAttempt(), Attempt(Some(w(k).answer.failure), w(k).now, w(k).jitter), p);
  }

  // ------------------------------------------------------------------ exits

  /** A class the table sends for again while the episode can still afford it. */
  predicate Retryable(f: Failure, lastShape: Option<ShapeKey>, charged: nat, p: Policy) {
    || f.class_.Transient?
    || (f.class_.ResponseShape? && f.shape.Some? && f.shape != lastShape)
    || (f.class_.Throttled? && charged < Min(THROTTLE_SENDS_ALLOWED, MaxSends(p)))
  }

  /**
   How a call leaves, read off its last failure, the sends charged and the shape spent last: only a retryable
   class is ever cut by the backoff's cancel, and hands over to the chain only with its budget or deadline spent.
   */
  lemma ExitTellsWhy(p: Policy, ep: Episode, w: World, n: nat, exit: Exit)
    requires Drawn(w) && Sent(p, ep, w, n, exit) && 0 < n && w(n - 1).answer.Failed?
    ensures
      var f, charged := w(n - 1).answer.failure, ep.attempts + n;
      var retryable := Retryable(f, LastShape(ep, w, n - 1), charged, p);
      var spent := charged == MaxSends(p) || ep.Elapsed(w(n - 1).now) >= p.retryTimeout;
      && (exit.Failover? <==> retryable && spent)
      && (exit.Cancelled? <==> retryable && !spent)
      && (exit.FatalExit? <==> f.class_.RequestPermanent? || f.class_.Unclassified?)
      && (exit.Stopped? <==> f.class_.LocalConfig?)
      && (exit.Switch? <==> !retryable && !exit.FatalExit? && !exit.Stopped?)
      && (exit.Switch? ==> exit.block.Some?)
  {
    SendsStayInBudget(p, ep, w, n, exit);
    LedgerCounts(ep, w, n - 1);
    LedgerRemembers(ep, w, n - 1);
    assert w(n - 1).jitter < RETRY_JITTER_MAX;
    hide Ledger, LastShape, BackoffSchedule, Drawn;
  }

  /**
   The record of each completed backoff: the number of the send that failed, the kind its class gives, and a
   wait that is the schedule's own or ends on the deadline.
   */
  lemma BackoffsByClass(p: Policy, ep: Episode, w: World, n: nat, exit: Exit, k: nat)
    requires Drawn(w) && Sent(p, ep, w, n, exit) && k < n - 1
    ensures w(k).answer.Failed? && forall j: nat :: j < n - 1 ==> GoesAgain(p, ep, w, j)
    ensures
      var r, c := Backoffs(p, ep, w, n - 1)[k], w(k).answer.failure.class_;
      && r.Retried? && r.attempt == ep.attempts + k + 1
      && (r.kind.TimeoutRetry? <==> c == Transient(Timeout)) && (r.kind.ServerRetry? <==> c == Transient(Server))
      && (r.kind.RateLimitRetry? <==> c.Throttled?)
      && (r.delay == BackoffSchedule(p, ep.attempts + k, w(k).jitter) ||
          (r.delay < BackoffSchedule(p, ep.attempts + k, w(k).jitter) && ep.Elapsed(w(k).now) + r.delay == p.retryTimeout))
  {
    assert GoesAgain(p, ep, w, k);
    RetriedInside(p, ep, w, k);
    LedgerCounts(ep, w, k);
    RepeatsAreCut(p, ep, w, n, exit, k);
    assert w(k).jitter < RETRY_JITTER_MAX;
    RetryIsAffordable(
      Ledger(ep, w, k).AfterAttempt(), Attempt(Some(w(k).answer.failure), w(k).now, w(k).jitter), p);
    hide Decide, BackoffSchedule, Ledger;
  }

  /**
   What a switch carries and records, by the class of the failure it settles: a quota block or a throttle leaves
   one rate-limit observation at the send's number, and every other ending leaves none.
   */
  lemma SwitchesByClass(p: Policy, ep: Episode, w: World, n: nat, exit: Exit)
    requires Drawn(w) && Sent(p, ep, w, n, exit) && 0 < n
    ensures
      var left := Observation(exit, ep.attempts + n);
      if exit.Switch? then
        && w(n - 1).answer.Failed?
        && (var f := w(n - 1).answer.failure;
            && exit.failure == f
            && (f.class_.QuotaBlocked? ==> exit.block == Some(if f.payment then Payment else Quota))
            && (f.class_.Throttled? ==> exit.block == Some(Quota))
            && (f.class_.EndpointPermanent? ==> exit.block == Some(EndpointAuth))
            && (f.class_.ResponseShape? ==> exit.block == Some(EndpointShape))
            && left == if f.class_.QuotaBlocked? || f.class_.Throttled? then [Observed(ep.attempts + n, RateLimitRetry)] else [])
      else left == []
  {
    if exit.Switch? {
      ExitTellsWhy(p, ep, w, n, exit);
      BlocksByClass(w(n - 1).answer.failure);
    }
  }

  // ------------------------------------------------------------------ the worst case

  /** The schedule's waits for the exponents from `a` up to `b`. */
  function ScheduleSum(p: Policy, jitter: Duration, a: nat, b: nat): nat
    decreases b
  {
    if b <= a then 0 else ScheduleSum(p, jitter, a, b - 1) + BackoffSchedule(p, b - 1, jitter)
  }

  function WorstCase(p: Policy): Duration {
    Min(ScheduleSum(p, RETRY_JITTER_MAX, 0, p.maxRetries) + MaxSends(p) * CALL_WORST_ASSUMED, DURATION_MAX)
  }

  /** retry_worst_case: every scheduled wait, plus one assumed call per send, saturating. */
  method RetryWorstCase(p: Policy) returns (worst: Duration)
    ensures worst == WorstCase(p)
  {
    var waits: Duration := 0;
    for exponent := 0 to p.maxRetries
      invariant waits == Min(ScheduleSum(p, RETRY_JITTER_MAX, 0, exponent), DURATION_MAX)
    {
      waits := SaturatingAdd(waits, BackoffSchedule(p, exponent, RETRY_JITTER_MAX));
    }
    worst := SaturatingAdd(waits, SaturatingMul(CALL_WORST_ASSUMED, MaxSends(p)));
  }

  /** The backoffs the first `n` turns began; a cut one is counted whole. */
  function Waited(p: Policy, ep: Episode, w: World, n: nat): nat
    requires Drawn(w)
  {
    if n == 0 then 0
    else
      Waited(p, ep, w, n - 1) +
      (if w(n - 1).answer.Failed? && Verdict(p, ep, w, n - 1).Retry? then Verdict(p, ep, w, n - 1).after else 0)
  }

  function Called(w: World, n: nat): nat { if n == 0 then 0 else Called(w, n - 1) + w(n - 1).call }

  /** Calls no longer than `call`. */
  ghost predicate Prompt(w: World, call: nat) { forall k: nat :: w(k).call <= call }

  lemma {:induction false} CallsBounded(w: World, call: nat, n: nat)
    requires Prompt(w, call)
    ensures Called(w, n) <= n * call
  {
    if n > 0 { CallsBounded(w, call, n - 1); }
  }

  lemma {:induction false} SumGrows(p: Policy, jitter: Duration, a: nat, b: nat, c: nat)
    requires a <= b <= c
    ensures ScheduleSum(p, jitter, a, b) <= ScheduleSum(p, jitter, a, c) <= ScheduleSum(p, jitter, 0, c)
    decreases c
  {
    if b < c { SumGrows(p, jitter, a, b, c - 1); }
    else if a < b { SumGrows(p, jitter, a, b - 1, b - 1); }
  }

  /** The longest jitter a draw can give. */
  const LONGEST: Duration := RETRY_JITTER_MAX - 1

  lemma {:induction false} DrawnSum(p: Policy, a: nat, b: nat)
    ensures ScheduleSum(p, LONGEST, a, b) <= ScheduleSum(p, RETRY_JITTER_MAX, a, b)
    decreases b
  {
    if a < b {
      DrawnSum(p, a, b - 1);
      ScheduleBounds(p, b - 1, LONGEST, RETRY_JITTER_MAX);
    }
  }

  /** One wait is inside the schedule at its own exponent. */
  lemma WaitInSchedule(p: Policy, ep: Episode, w: World, k: nat)
    requires Drawn(w) && ep.attempts < MaxSends(p)
    requires forall j: nat :: j < k ==> GoesAgain(p, ep, w, j)
    requires w(k).answer.Failed? && Verdict(p, ep, w, k).Retry?
    ensures Verdict(p, ep, w, k).after <= BackoffSchedule(p, ep.attempts + k, LONGEST)
  {
    RetriedInside(p, ep, w, k);
    hide Decide, BackoffSchedule;
    assert w(k).jitter < RETRY_JITTER_MAX;
    RetryIsAffordable(Ledger(ep, w, k).AfterAttempt(), Attempt(Some(w(k).answer.failure), w(k).now, w(k).jitter), p);
    ScheduleBounds(p, ep.attempts + k, w(k).jitter, LONGEST);
  }

  lemma {:induction false} WaitsInSchedule(p: Policy, ep: Episode, w: World, n: nat)
    requires Drawn(w) && ep.attempts < MaxSends(p)
    requires forall k: nat :: k < n ==> GoesAgain(p, ep, w, k)
    ensures Waited(p, ep, w, n) <= ScheduleSum(p, LONGEST, ep.attempts, ep.attempts + n)
  {
    hide Verdict, BackoffSchedule;
    if n > 0 {
      WaitsInSchedule(p, ep, w, n - 1);
      var k: nat := n - 1;
      assert GoesAgain(p, ep, w, k);
      WaitInSchedule(p, ep, w, k);
    }
  }

  /** All the backoffs a call begins are inside what its ledger still had of the schedule. */
  lemma WaitsFitTheSchedule(p: Policy, ep: Episode, w: World, n: nat, exit: Exit)
    requires Drawn(w) && ep.attempts < MaxSends(p) && Sent(p, ep, w, n, exit)
    ensures Waited(p, ep, w, n) <= ScheduleSum(p, LONGEST, ep.attempts, p.maxRetries)
  {
    hide Verdict, BackoffSchedule;
    WaitsInSchedule(p, ep, w, n - 1);
    if exit.Cancelled? {
      SendsStayInBudget(p, ep, w, n, exit);
      RetriedInside(p, ep, w, n - 1);
      WaitInSchedule(p, ep, w, n - 1);
      SumGrows(p, LONGEST, ep.attempts, ep.attempts + n, p.maxRetries);
    } else {
      SendsStayInBudget(p, ep, w, n, exit);
      if n > 1 { RetriedInside(p, ep, w, n - 2); }
      SumGrows(p, LONGEST, ep.attempts, ep.attempts + n - 1, p.maxRetries);
    }
  }

  /** Sleeps and assumed calls of one call, whatever the world, stay inside the worst case the startup check reports. */
  lemma InsideTheWorstCase(p: Policy, ep: Episode, w: World, n: nat, exit: Exit)
    requires Drawn(w) && Prompt(w, CALL_WORST_ASSUMED) && Sent(p, ep, w, n, exit)
    ensures Min(Waited(p, ep, w, n) + Called(w, n), DURATION_MAX) <= WorstCase(p)
  {
    hide Verdict, BackoffSchedule;
    if n > 0 {
      WaitsFitTheSchedule(p, ep, w, n, exit);
      SendsStayInBudget(p, ep, w, n, exit);
      CallsBounded(w, CALL_WORST_ASSUMED, n);
      SumGrows(p, LONGEST, ep.attempts, p.maxRetries, p.maxRetries);
      DrawnSum(p, 0, p.maxRetries);
      assert n * CALL_WORST_ASSUMED <= MaxSends(p) * CALL_WORST_ASSUMED;
    }
  }
}
