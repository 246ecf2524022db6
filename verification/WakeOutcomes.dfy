/**
 What each outcome of a round leads to, in the outcome's own terms: how long its park lasts,
 what it is parked for, what it charges, and what it leaves alone.
 */
module WakeOutcomes {
  import opened Lifecycle
  import opened Wrappers
  import opened WakeLoop
  import opened WakeInvariant
  import opened WakeSafety
  import opened WakeRuns

  /** Acting on an outcome that arms a fuse: the verdict, the deadline, the generation, the state. */
  function Parking(delay: nat): seq<Event> { [Go, Delay(delay), Go, Go] }

  /** One more piece at the end of a schedule. */
  lemma RunSnoc(c: Config, s: State, es: seq<Event>, e: Event)
    ensures Run(c, s, es + [e]) == Next(c, Run(c, s, es), e)
  {
    hide Next;
    assert (es + [e])[..|es|] == es;
  }

  lemma RunOne(c: Config, s: State, e: Event)
    ensures Run(c, s, [e]) == Next(c, s, e)
  {
    hide Next;
    assert [e][..0] == [];
  }

  lemma RunTwo(c: Config, s: State, e0: Event, e1: Event)
    ensures Run(c, s, [e0, e1]) == Next(c, Next(c, s, e0), e1)
  {
    RunOne(c, s, e0);
    RunSnoc(c, s, [e0], e1);
    hide Next, Run;
    assert [e0] + [e1] == [e0, e1];
  }

  lemma RunThree(c: Config, s: State, e0: Event, e1: Event, e2: Event)
    ensures Run(c, s, [e0, e1, e2]) == Next(c, Next(c, Next(c, s, e0), e1), e2)
  {
    RunTwo(c, s, e0, e1);
    RunSnoc(c, s, [e0, e1], e2);
    hide Next, Run;
    assert [e0, e1] + [e2] == [e0, e1, e2];
  }

  lemma RunFour(c: Config, s: State, delay: nat)
    ensures Run(c, s, Parking(delay)) == Next(c, Next(c, Next(c, Next(c, s, Go), Delay(delay)), Go), Go)
  {
    hide Next, Run;
    RunThree(c, s, Go, Delay(delay), Go);
    RunSnoc(c, s, [Go, Delay(delay), Go], Go);
    assert [Go, Delay(delay), Go] + [Go] == Parking(delay);
  }

  /** What the park of an outcome leaves alone, and the generation it publishes. */
  predicate OnlyParked(s: State, s': State, to: LifecycleState, cause: Cause) {
    && s'.mail == s.mail && s'.now == s.now && s'.cancelled == s.cancelled && s'.budgetExceeded == s.budgetExceeded
    && s'.log == s.log + [Move(s.lifecycle, to, cause, s.now)]
    && s'.lifecycle == to
  }

  predicate NewGeneration(s: State, s': State) {
    s'.signals == s.signals.(parkEpoch := (s.signals.parkEpoch + 1) % U64)
  }

  /** A break waits as many seconds as it asked for, and the round counts as progress. */
  lemma BreakWaitsItsSeconds(c: Config, s: State, delay: nat)
    requires s.pc.Report? && s.pc.outcome.BreakWait?
    ensures
      var s' := Run(c, s, Parking(delay));
      var until := s.now + s.pc.outcome.timeoutSecs;
      && OnlyParked(s, s', Waiting(until), Break) && NewGeneration(s, s')
      && s'.pc == Return(s.pc.arm, Awake)
      && s'.fuses.wait.armed == Some(until) && s'.fuses.sleepers == s.fuses.sleepers + multiset{Sleeper(WaitFuse, until)}
      && s'.fuses.retry == s.fuses.retry && s'.fuses.pacing == s.fuses.pacing
      && s'.counts.transientFails == 0
  {
    hide Next, Run;
    RunFour(c, s, delay);
    ParkGoes(c, s, delay);
    var s1 := ReportStep(c, s);
    ParkGoes(c, s1, delay);
    var s2 := ArmParkStep(c, s1, delay);
    ParkGoes(c, s2, delay);
    ParkGoes(c, BumpEpochStep(s2), delay);
  }

  /** A spent budget is looked at again after the default wait of ten minutes. */
  lemma BudgetIsProbed(c: Config, s: State, delay: nat)
    requires s.pc.Report? && s.pc.outcome.BudgetExceeded?
    ensures
      var s' := Run(c, s, Parking(delay));
      && OnlyParked(s, s', Waiting(s.now + 600), BudgetProbe) && NewGeneration(s, s')
      && s'.pc == Return(s.pc.arm, Held)
      && s'.fuses.wait.armed == Some(s.now + 600)
      && s'.fuses.sleepers == s.fuses.sleepers + multiset{Sleeper(WaitFuse, s.now + 600)}
      && s'.fuses.retry == s.fuses.retry && s'.fuses.pacing == s.fuses.pacing
      && s'.counts.transientFails == 0
  {
    hide Next, Run;
    RunFour(c, s, delay);
    ParkGoes(c, s, delay);
    var s1 := ReportStep(c, s);
    ParkGoes(c, s1, delay);
    var s2 := ArmParkStep(c, s1, delay);
    ParkGoes(c, s2, delay);
    ParkGoes(c, BumpEpochStep(s2), delay);
  }

  /** A failed chain is charged once; a count at the top of its 32 bits stays there. */
  function Charged(fails: nat): nat { if fails < 0xFFFF_FFFF then fails + 1 else 0xFFFF_FFFF }

  lemma ChainArms(c: Config, s: State, delay: nat)
    requires s.pc.Report? && s.pc.outcome.ChainExhausted? && Charged(s.counts.transientFails) <= c.maxTransientRetries
    ensures ReportStep(c, s).pc.ArmPark?
    ensures
      var r := ArmParkStep(c, ReportStep(c, s), delay);
      var fails := Charged(s.counts.transientFails);
      && r == s.(pc := r.pc, counts := r.counts, fuses := s.fuses.Arm(RetryFuse, s.now + delay))
      && r.pc == BumpEpoch(s.pc.arm, Retrying(fails, c.maxTransientRetries, s.now + delay), RetryArmed, Held)
      && r.counts.transientFails == fails
  {}

  /** Inside the limit a failed chain waits out the drawn backoff, as that many attempts. */
  lemma ChainWaitsItsBackoff(c: Config, s: State, delay: nat)
    requires s.pc.Report? && s.pc.outcome.ChainExhausted? && Charged(s.counts.transientFails) <= c.maxTransientRetries
    ensures
      var fails := Charged(s.counts.transientFails);
      var s' := Run(c, s, Parking(delay));
      && OnlyParked(s, s', Retrying(fails, c.maxTransientRetries, s.now + delay), RetryArmed) && NewGeneration(s, s')
      && s'.pc == Return(s.pc.arm, Held)
      && s'.fuses.retry.armed == Some(s.now + delay)
      && s'.fuses.sleepers == s.fuses.sleepers + multiset{Sleeper(RetryFuse, s.now + delay)}
      && s'.fuses.wait == s.fuses.wait && s'.fuses.pacing == s.fuses.pacing
      && s'.counts.transientFails == fails
  {
    hide Next, Run, ReportStep, ArmParkStep;
    ChainArms(c, s, delay);
    RunFour(c, s, delay);
    ParkGoes(c, s, delay);
    var s1 := ReportStep(c, s);
    ParkGoes(c, s1, delay);
    var s2 := ArmParkStep(c, s1, delay);
    ParkGoes(c, s2, delay);
    ParkGoes(c, BumpEpochStep(s2), delay);
  }

  /** Past the limit it parks the agent for good, with nothing armed. */
  lemma ChainParksPastTheLimit(c: Config, s: State)
    requires s.pc.Report? && s.pc.outcome.ChainExhausted? && Charged(s.counts.transientFails) > c.maxTransientRetries
    ensures
      var s' := Run(c, s, [Go]);
      && OnlyParked(s, s', Parked(TransientRetryExhausted, s.now), RetriesExhausted)
      && s'.pc == Return(s.pc.arm, Held) && s'.fuses == s.fuses && s'.signals == s.signals
      && s'.counts.transientFails == Charged(s.counts.transientFails)
  {
    hide Next, Run;
    RunOne(c, s, Go);
    ParkGoes(c, s, 0);
  }

  lemma PacingGoes(c: Config, s: State, delay: nat)
    ensures s.pc.ArmPacing? ==>
              Next(c, s, Delay(delay)) == s.(fuses := s.fuses.Arm(PacingFuse, s.now + delay), pc := QuotaSettle(s.pc.arm))
    ensures s.pc.QuotaSettle? ==>
              Next(c, s, Go) == SettleTo(s, Parked(QuotaBlocked, s.now), QuotaBlockedPark).(pc := Return(s.pc.arm, Held))
  { hide ReportStep, ArmParkStep; }

  /** A quota block waits out its pacing delay, charges nothing, forgives nothing and publishes no generation. */
  lemma QuotaWaitsItsPacing(c: Config, s: State, delay: nat)
    requires s.pc.Report? && s.pc.outcome.QuotaBlock?
    ensures
      var s' := Run(c, s, [Go, Delay(delay), Go]);
      && OnlyParked(s, s', Parked(QuotaBlocked, s.now), QuotaBlockedPark)
      && s'.pc == Return(s.pc.arm, Held)
      && s'.fuses.pacing.armed == Some(s.now + delay)
      && s'.fuses.sleepers == s.fuses.sleepers + multiset{Sleeper(PacingFuse, s.now + delay)}
      && s'.fuses.wait == s.fuses.wait && s'.fuses.retry == s.fuses.retry
      && s'.counts == s.counts && s'.signals == s.signals
  {
    hide Next, Run;
    RunThree(c, s, Go, Delay(delay), Go);
    ParkGoes(c, s, delay);
    var s1 := ReportStep(c, s);
    PacingGoes(c, s1, delay);
    PacingGoes(c, s1.(fuses := s1.fuses.Arm(PacingFuse, s1.now + delay), pc := QuotaSettle(s1.pc.arm)), delay);
  }

  /** An outcome that settles at once touches no fuse and no signal, and forgives earlier failed chains. */
  predicate OnlySettled(s: State, s': State, to: LifecycleState, cause: Cause, d: Disposition)
    requires s.pc.Report?
  {
    OnlyParked(s, s', to, cause) && s'.pc == Return(s.pc.arm, d) && s'.fuses == s.fuses && s'.signals == s.signals &&
    s'.counts.transientFails == 0
  }

  /**
   The outcomes that settle at once: each hard park names its own reason, and a bare answer goes
   round again until one more would pass the heartbeat limit.
   */
  lemma SettledAtOnce(c: Config, s: State)
    requires s.pc.Report?
    ensures
      var s' := Run(c, s, [Go]);
      var arm, np, o := s.pc.arm, s.pc.noProgress, s.pc.outcome;
      && (o.BreakIdle? || o.ParkIdle? ==> OnlySettled(s, s', Idle, Break, Awake))
      && (o.MaxRounds? ==> OnlySettled(s, s', Parked(MaxRoundsExceeded, s.now), MaxRoundsPark, Held))
      && (o.Fatal? ==> OnlySettled(s, s', Parked(FatalError, s.now), FatalPark, Held))
      && (o.Cancelled? && !s.cancelled ==> OnlySettled(s, s', Idle, Interrupt(o.interrupted), Awake))
      && (o.Cancelled? && s.cancelled ==>
            s'.pc == Return(arm, Terminated) && s'.lifecycle == s.lifecycle && s'.log == s.log && s'.fuses == s.fuses)
      && (o.BareAssistant? && np < 0xFFFF_FFFF && np < c.maxHeartbeatRounds ==>
            s'.pc == Mint(arm, np + 1) && s'.lifecycle == s.lifecycle && s'.log == s.log && s'.fuses == s.fuses &&
            s'.counts.transientFails == 0)
      && (o.BareAssistant? && np < 0xFFFF_FFFF && np >= c.maxHeartbeatRounds ==>
            OnlySettled(s, s', Idle, HeartbeatLimit, Awake))
  {
    hide Next, Run;
    RunOne(c, s, Go);
    ParkGoes(c, s, 0);
  }

  // ------------------------------------------------------------------ how long a park lasts

  /** The fuse an outcome parks on and the seconds it stays there. */
  predicate ParksFor(c: Config, s: State, delay: nat, f: Fuse, secs: nat) {
    s.pc.Report? &&
    match s.pc.outcome
    case BreakWait(t) => f == WaitFuse && secs == t
    case BudgetExceeded => f == WaitFuse && secs == 600
    case ChainExhausted => f == RetryFuse && secs == delay && Charged(s.counts.transientFails) <= c.maxTransientRetries
    case QuotaBlock => f == PacingFuse && secs == delay
    case _ => false
  }

  /** Acting on the outcome, and back to the select: an awake ending looks into an empty inbox first. */
  function ToSelect(s: State, delay: nat): seq<Event>
    requires s.pc.Report?
  {
    match s.pc.outcome
    case QuotaBlock => [Go, Delay(delay), Go, Go]
    case BreakWait(_) => [Go, Delay(delay), Go, Go, Go, Go]
    case _ => [Go, Delay(delay), Go, Go, Go]
  }

  lemma {:induction false} RunStaysReachable(c: Config, s: State, es: seq<Event>)
    requires Reachable(c, s)
    ensures Reachable(c, Run(c, s, es))
    decreases |es|
  {
    hide Next, Reachable;
    if es != [] {
      RunStaysReachable(c, s, es[..|es| - 1]);
      ReachableNext(c, Run(c, s, es[..|es| - 1]), es[|es| - 1]);
    }
  }

  lemma ParkReachesSelect(c: Config, s: State, delay: nat, f: Fuse, secs: nat)
    requires ParksFor(c, s, delay, f, secs)
    requires s.pc.outcome.BreakWait? ==> s.mail.inbox == []
    ensures
      var s' := Run(c, s, ToSelect(s, delay));
      s'.pc.AtSelect? && s'.fuses.Cell(f).armed == Some(s.now + secs) && s'.now == s.now && s'.cancelled == s.cancelled
  {
    hide Next, Run;
    match s.pc.outcome {
      case QuotaBlock =>
        QuotaWaitsItsPacing(c, s, delay);
        assert ToSelect(s, delay) == [Go, Delay(delay), Go] + [Go];
        RunSnoc(c, s, [Go, Delay(delay), Go], Go);
        ReturnGoes(c, Run(c, s, [Go, Delay(delay), Go]));
      case BreakWait(_) =>
        BreakWaitsItsSeconds(c, s, delay);
        var s1 := Run(c, s, Parking(delay));
        assert ToSelect(s, delay) == Parking(delay) + [Go] + [Go];
        RunSnoc(c, s, Parking(delay), Go);
        RunSnoc(c, s, Parking(delay) + [Go], Go);
        ReturnGoes(c, s1);
        if s.pc.arm.Drained? { StaysAtSelect(c, ReturnStep(s1)); } else { DrainGoes(c, ReturnStep(s1)); }
      case BudgetExceeded =>
        BudgetIsProbed(c, s, delay);
        HeldReturns(c, s, delay);
      case ChainExhausted =>
        ChainWaitsItsBackoff(c, s, delay);
        HeldReturns(c, s, delay);
    }
  }

  lemma HeldReturns(c: Config, s: State, delay: nat)
    requires s.pc.Report? && !s.pc.outcome.QuotaBlock? && !s.pc.outcome.BreakWait?
    requires Run(c, s, Parking(delay)).pc == Return(s.pc.arm, Held)
    ensures Run(c, s, ToSelect(s, delay)) == Run(c, s, Parking(delay)).(pc := AtSelect)
  {
    hide Next, Run;
    assert ToSelect(s, delay) == Parking(delay) + [Go];
    RunSnoc(c, s, Parking(delay), Go);
    ReturnGoes(c, Run(c, s, Parking(delay)));
  }

  lemma StaysAtSelect(c: Config, s: State)
    requires s.pc.AtSelect?
    ensures Next(c, s, Go) == s
  {}

  /** A park lasts as long as its outcome asked: left alone, it ends in a round exactly that many seconds later. */
  lemma ParkLastsItsSeconds(c: Config, s: State, delay: nat, f: Fuse, secs: nat)
    requires Reachable(c, s)
    ensures
      ParksFor(c, s, delay, f, secs) && !s.cancelled && (s.pc.outcome.BreakWait? ==> s.mail.inbox == []) ==>
        var s1 := Run(c, s, ToSelect(s, delay));
        var s2 := Run(c, s1, RingSchedule(s1, f, s.now + secs));
        s1.pc.AtSelect? && s2.lifecycle.Running? && s2.now == s.now + secs && s2.fuses.Cell(f).armed == None
  {
    if ParksFor(c, s, delay, f, secs) && !s.cancelled && (s.pc.outcome.BreakWait? ==> s.mail.inbox == []) {
      hide Reachable, Run, Inv, RingSchedule, ToSelect;
      RunStaysReachable(c, s, ToSelect(s, delay));
      ParkReachesSelect(c, s, delay, f, secs);
      ArmedFuseRings(c, Run(c, s, ToSelect(s, delay)), f, s.now + secs);
    }
  }

  // ------------------------------------------------------------------ how a wake begins

  predicate NothingArmed(f: Fuses) { f.wait.armed == None && f.retry.armed == None && f.pacing.armed == None }

  /** Stored permits and sleepers outlive the deadlines they were for. */
  predicate SamePermits(a: Fuses, b: Fuses) {
    b.wait.permit == a.wait.permit && b.retry.permit == a.retry.permit && b.pacing.permit == a.pacing.permit &&
    b.sleepers == a.sleepers
  }

  /** A prompt starts a wake whatever the state, a park of any kind included, and drops every deadline with it. */
  lemma PromptWakes(c: Config, s: State)
    requires s.pc.AtSelect? && s.mail.prompts != []
    ensures
      var s' := Run(c, s, [TakePrompt]);
      && s'.pc == Entry(Prompt) && NothingArmed(s'.fuses) && SamePermits(s.fuses, s'.fuses)
      && s'.lifecycle == s.lifecycle && s'.signals == s.signals && s'.counts.transientFails == s.counts.transientFails
      && s'.mail.heard == s.mail.heard + [s.mail.prompts[0]] && s'.mail.prompts == s.mail.prompts[1..]
      && SameRows(s.mail, s'.mail)
  {
    hide Next, Run;
    RunOne(c, s, TakePrompt);
    SelectTakesPrompt(c, s);
  }

  /** A notify with work behind it drops every deadline too, but ends no parked state. */
  lemma NotifyWakes(c: Config, s: State)
    requires s.pc.AtSelect? && s.signals.notify && !CancelApplies(s)
    ensures
      var s' := Run(c, s, [TakeNotify] + Gos(4));
      var work := s.mail.inbox != [] || s.mail.approvals != [];
      if s.lifecycle.Parked? then Run(c, s, [TakeNotify] + Gos(3)).pc == AtSelect && Run(c, s, [TakeNotify] + Gos(3)).mail == s.mail
      else if work then
        s'.pc == Entry(Notified) && NothingArmed(s'.fuses) && SamePermits(s.fuses, s'.fuses) &&
        s'.mail.delivered == s.mail.delivered + s.mail.inbox && s'.mail.inbox == []
      else s'.pc == AtSelect && s'.fuses == s.fuses
  {
    hide Run, Next, EnvStep, SelectStep, RunStep, ParkStep, NotifyStep;
    if s.lifecycle.Parked? {
      NotifyPassesParked(c, s);
    } else {
      NotifyArmPulls(c, s);
      OneMore(c, s, [TakeNotify], 4);
      NotifyGoes(c, AfterPull(s));
      ApprovalsRead(AfterPull(s));
      NotifyStartsExactly(c, s);
    }
  }

  lemma ApprovalsRead(s: State)
    requires s.pc.NotifyApprovals?
    ensures
      var r := NotifyStep(s);
      if s.pc.pulled || s.mail.approvals != [] then
        r.pc == Entry(Notified) && NothingArmed(r.fuses) && SamePermits(s.fuses, r.fuses) && r.mail == s.mail
      else r == s.(pc := AtSelect)
  {}

  lemma NotifyPassesParked(c: Config, s: State)
    requires s.pc.AtSelect? && s.signals.notify && !CancelApplies(s) && s.lifecycle.Parked?
    ensures Run(c, s, [TakeNotify] + Gos(3)).pc == AtSelect && Run(c, s, [TakeNotify] + Gos(3)).mail == s.mail
  {
    hide Run, Next;
    var s1 := s.(signals := s.signals.(notify := false), pc := NotifyReset);
    NotifyTaken(c, s);
    NotifyGoes(c, s1);
    NotifyGoes(c, NotifyStep(s1));
    NotifyGoes(c, NotifyStep(NotifyStep(s1)));
    First(c, s, TakeNotify);
    OneMore(c, s, [TakeNotify], 1);
    OneMore(c, s, [TakeNotify], 2);
    OneMore(c, s, [TakeNotify], 3);
  }

  /** A fuse wakes on its own passed deadline and drops that one alone; a permit left over from an earlier one is swallowed. */
  lemma FuseWakes(c: Config, s: State, f: Fuse)
    requires s.pc.AtSelect? && s.fuses.Cell(f).permit
    ensures
      var s' := Run(c, s, [TakeFuse(f), Go]);
      var armed := s.fuses.Cell(f).armed;
      var rings := armed.Some? && armed.value <= s.now;
      && s'.pc == (if rings then Entry(Fired(f)) else AtSelect)
      && s'.fuses.Cell(f) == FuseCell(if rings then None else armed, false)
      && (forall g: Fuse :: g != f ==> s'.fuses.Cell(g) == s.fuses.Cell(g))
      && s'.fuses.sleepers == s.fuses.sleepers
      && s'.lifecycle == s.lifecycle && s'.signals == s.signals && s'.mail == s.mail
      && s'.counts.transientFails == s.counts.transientFails
  {
    hide Next, Run;
    RunTwo(c, s, TakeFuse(f), Go);
    FuseTaken(c, s, f);
    FuseChecked(c, Next(c, s, TakeFuse(f)));
  }

  lemma FuseTaken(c: Config, s: State, f: Fuse)
    requires s.pc.AtSelect? && s.fuses.Cell(f).permit
    ensures Next(c, s, TakeFuse(f)) ==
            s.(fuses := s.fuses.With(f, FuseCell(s.fuses.Cell(f).armed, false)), pc := FuseCheck(f))
  { hide EnvStep, RunStep, ParkStep, OuterStep; }

  lemma FuseChecked(c: Config, s: State)
    requires s.pc.FuseCheck?
    ensures Next(c, s, Go) == FuseStep(s)
  { hide EnvStep, RunStep, ParkStep, SelectStep; }

  /** A profile that cannot serve the inbox parks before any round; one that can goes on to its first with no progress lost. */
  lemma GateExactly(c: Config, s: State)
    requires s.pc.Entry?
    ensures
      var blocked, passed := Run(c, s, [Go, GateBlocked]), Run(c, s, [Go, Go]);
      && blocked.lifecycle == Parked(FatalError, s.now) && blocked.pc == Return(s.pc.arm, Held)
      && passed.lifecycle == Running && passed.pc == Mint(s.pc.arm, 0)
      && passed.log == s.log + [Move(s.lifecycle, Running, WakeEntry(s.pc.arm), s.now)]
      && blocked.log == passed.log + [Move(Running, Parked(FatalError, s.now), ModalityGate, s.now)]
      && blocked.mail == passed.mail == s.mail && blocked.fuses == passed.fuses == s.fuses
      && passed.counts == blocked.counts == s.counts
  {
    hide Next, Run;
    RunTwo(c, s, Go, GateBlocked);
    RunTwo(c, s, Go, Go);
    EntryGoes(c, s);
    GateGoes(c, EntryStep(s), true);
    GateGoes(c, EntryStep(s), false);
  }

  /** The top of a round: past the tool limit nothing is read; otherwise the prompts are, then the budget, then the verdicts. */
  lemma RoundTopExactly(c: Config, s: State)
    requires s.pc.RoundTop?
    ensures
      var arm, np, r := s.pc.arm, s.pc.noProgress, s.pc.round;
      var s1, s2 := Run(c, s, [Go]), Run(c, s, [Go, Go]);
      if r >= c.maxToolRounds then s1.pc == Report(arm, np, MaxRounds) && s1.mail == s.mail && s1.counts == s.counts
      else
        && s1.mail.heard == s.mail.heard + s.mail.prompts && s1.mail.prompts == []
        && s1.counts.rounds == s.counts.rounds + 1
        && if s.budgetExceeded then s1.pc == Report(arm, np, BudgetExceeded) && s1.mail.approvals == s.mail.approvals
           else s2.pc == InRound(arm, np, r) && s2.mail.told == s.mail.told + s.mail.approvals && s2.mail.approvals == []
  {
    hide Next, Run;
    RunOne(c, s, Go);
    RunTwo(c, s, Go, Go);
    TopGoes(c, s);
    DrainGoesOn(c, Next(c, s, Go));
  }

  lemma TopGoes(c: Config, s: State)
    requires s.pc.RoundTop?
    ensures Next(c, s, Go) == RoundTopStep(c, s)
  { hide EnvStep, SelectStep, ParkStep, OuterStep; }

  lemma DrainGoesOn(c: Config, s: State)
    ensures s.pc.DrainApprovals? ==>
              Next(c, s, Go) == s.(mail := s.mail.ToldAll(), pc := InRound(s.pc.arm, s.pc.noProgress, s.pc.round))
  { hide EnvStep, SelectStep, ParkStep, OuterStep; }

  // ------------------------------------------------------------------ how a delivery ends

  /** What one ending of a delivery adds to the prompt channel. */
  predicate Prompted(s: State, s': State, row: nat, kick: bool) {
    var more := if kick then [row] else [];
    s'.mail.prompts == s.mail.prompts + more && s'.mail.sent == s.mail.sent + more
  }

  /**
   A delivery that read no parked mark owes a notify, and sends its row to the prompts as well when it injects; one that
   read the mark owes nothing and at most kicks. Either way the row stays in the inbox and the loop is where it was.
   */
  lemma DeliveryEnds(c: Config, s: State, row: nat, flag: bool)
    requires s.mail.HasFate(row, Cleared) && s.mail.promptsOpen
    ensures
      var a, p := Run(c, s, [Announce(row, flag)]), Run(c, s, [SeeParked(row, flag)]);
      && a.mail.fates == s.mail.fates[row := Announced(flag)] && a.signals == s.signals.(owed := s.signals.owed + 1)
      && a.mail.reached == |s.mail.fates| && Prompted(s, a, row, flag)
      && p.mail.fates == s.mail.fates[row := Deferred] && p.signals == s.signals
      && p.mail.reached == s.mail.reached && Prompted(s, p, row, flag)
      && a.mail.inbox == p.mail.inbox == s.mail.inbox && a.pc == p.pc == s.pc && a.fuses == p.fuses == s.fuses
  {
    hide Run, Next;
    RunOne(c, s, Announce(row, flag));
    RunOne(c, s, SeeParked(row, flag));
    DeliveryGoes(c, s, Announce(row, flag));
    DeliveryGoes(c, s, SeeParked(row, flag));
  }

  /** Coming on duty wakes an idle agent for everything that was buffered off duty, whatever it was. */
  lemma OnDutyServesTheBacklog(c: Config, s: State)
    requires Reachable(c, s) && s.pc.AtSelect? && s.lifecycle.Idle? && s.signals.owed == 0 && s.mail.inbox != []
    ensures
      var s1 := Run(c, s, [SetDuty(true), Notify]);
      var s2 := Run(c, s1, [TakeNotify] + Gos(5));
      && s1.mail.onDuty && s1.mail.inbox == s.mail.inbox
      && s2.lifecycle.Running? && s2.mail.inbox == [] && s2.mail.delivered == s.mail.delivered + s.mail.inbox
  {
    ReachableInv(c, s);
    RowsAreWritten(s.mail);
    hide Reachable, Inv, Run, Next, Gos;
    var s1 := Owing(s.(mail := s.mail.(onDuty := true)));
    RunTwo(c, s, SetDuty(true), Notify);
    DeliveryGoes(c, s, SetDuty(true));
    NotifyCalled(c, s1);
    ReachableNext(c, s, SetDuty(true));
    ReachableNext(c, s1, Notify);
    IdleWorkIsServed(c, Next(c, s1, Notify));
  }
}
