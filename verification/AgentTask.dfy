/**
 The agent task as the object the loop updates in place, over its own timers. Each method assigns
 the cells its piece of the loop assigns and is tied to that piece's function; `Serve` runs a whole
 schedule. `Settle` demands a legal move, so serving a schedule proves every move legal.
 */
module AgentTask {
  import opened Lifecycle
  import opened Wrappers
  import opened WakeLoop
  import opened WakeInvariant
  import opened WakeSafety
  import opened Timers

  class AgentTask {
    const config: Config
    var pc: Pc
    var lifecycle: LifecycleState
    var now: nat
    var cancelled: bool
    var budgetExceeded: bool
    var round: Option<RoundToken>
    const timers: TimerSet
    var signals: Signals
    var mail: Mail
    var counts: Counts
    var log: seq<Move>

    function View(): State
      reads this, timers
    {
      State(pc, lifecycle, now, cancelled, budgetExceeded, round, timers.View(), signals, mail, counts, log)
    }

    /** A task is born idle with no wake stored, over whatever rows its inbox already holds. */
    constructor (c: Config, initialPrompt: bool, restored: nat)
      ensures config == c && fresh(timers) && Initially(View())
      ensures pc == (if initialPrompt then Entry(Initial) else AtSelect)
      ensures |mail.inbox| == restored && !signals.notify
    {
      config := c;
      pc := if initialPrompt then Entry(Initial) else AtSelect;
      lifecycle, now, cancelled, budgetExceeded, round := Idle, 0, false, false, None;
      timers := new TimerSet();
      signals := Signals(false, 0, false, 0, None, multiset{});
      mail := Mail(seq(restored, i => i), seq(restored, _ => Restored), [], 0, true, [], [], [], [], true, [], []);
      counts := Counts(0, 0, 0, 0, 0);
      log := [];
    }

    // ---------------------------------------------------------------- settle

    method Settle(next: LifecycleState, cause: Cause)
      requires Legal(lifecycle, next)
      modifies this`lifecycle, this`log
      ensures View() == SettleTo(old(View()), next, cause)
    {
      log := log + [Move(lifecycle, next, cause, now)];
      lifecycle := next;
    }

    // ---------------------------------------------------------------- the select and its arms

    method EndPark(named: nat)
      requires lifecycle.WakePark()
      modifies this, timers
      ensures View() == EndCancelledPark(old(View()), named)
      ensures timers.waitUntil.None? && timers.retryAt.None? && timers.pacingWakeAt.None?
      ensures timers.sleepers == old(timers.sleepers)
    {
      timers.ClearAll();
      counts := counts.Reset();
      Settle(Idle, ParkCancel(named, counts.inForce));
    }

    method BeginWake(arm: Arm)
      modifies this`pc, this`counts
      ensures View() == StartWake(old(View()), arm)
    {
      pc, counts := Entry(arm), counts.(rounds := 0);
    }

    method Select(e: Event)
      requires pc.AtSelect? && SelectStep(View(), e).Some?
      modifies this, timers
      ensures Some(View()) == SelectStep(old(View()), e)
    {
      match e
      case TakePrompt =>
        if mail.prompts != [] {
          timers.ClearAll();
          mail := mail.(heard := mail.heard + [mail.prompts[0]], prompts := mail.prompts[1..]);
          BeginWake(Prompt);
        } else {
          pc := Done(false);
        }
      case TakeCancel => pc := Done(true);
      case TakeNotify => signals, pc := signals.(notify := false), NotifyReset;
      case TakeFuse(f) =>
        timers.SetPermit(f, false);
        pc := FuseCheck(f);
    }

    method PullInbox() returns (pulled: bool)
      modifies this`mail
      ensures View() == old(View()).(mail := old(View()).mail.Pulled())
      ensures pulled == (old(mail.inbox) != [])
    {
      pulled := mail.inbox != [];
      mail := mail.(delivered := mail.delivered + mail.inbox, inbox := []);
    }

    method NotifyArm()
      requires pc.NotifyReset? || pc.NotifyCancel? || pc.Renotify? || pc.NotifyPull? || pc.NotifyApprovals?
      modifies this, timers
      ensures View() == NotifyStep(old(View()))
      ensures pc.Entry? ==> forall f :: timers.Deadline(f).None?
      ensures timers.sleepers == old(timers.sleepers)
      ensures old(lifecycle).Parked? ==> lifecycle == old(lifecycle) && mail.inbox == old(mail.inbox)
    {
      match pc
      case NotifyReset => signals, pc := signals.(resetPending := false), NotifyCancel;
      case NotifyCancel =>
        var drained := signals.parkCancel;
        signals := signals.(parkCancel := None);
        if drained.Some? && drained.value.epoch == signals.parkEpoch && lifecycle.WakePark() {
          EndPark(drained.value.park);
          pc := Renotify;
        } else {
          pc := NotifyPull;
        }
      case Renotify => signals, mail, pc := signals.(notify := true), mail.Reached(), AtSelect;
      case NotifyPull =>
        if lifecycle.Parked? {
          pc := AtSelect;
        } else {
          var pulled := PullInbox();
          pc := NotifyApprovals(pulled);
        }
      case NotifyApprovals(pulled) =>
        if pulled || mail.approvals != [] {
          timers.ClearAll();
          BeginWake(Notified);
        } else {
          pc := AtSelect;
        }
    }

    method FuseArm()
      requires pc.FuseCheck?
      modifies this, timers
      ensures View() == FuseStep(old(View()))
      ensures pc.Entry? <==> old(timers.Deadline(pc.fuse)).Some? && old(timers.Deadline(pc.fuse)).value <= now
      ensures forall f :: timers.Deadline(f) == if pc == Entry(Fired(f)) then None else old(timers.Deadline(f))
      ensures timers.sleepers == old(timers.sleepers)
    {
      var f := pc.fuse;
      var due := timers.Due(f, now);
      if due {
        timers.Clear(f);
        BeginWake(Fired(f));
      } else {
        pc := AtSelect;
      }
    }

    /** The pieces between the select and a run. */
    method Outer(e: Event)
      requires !pc.AtSelect? && OuterStep(View(), e).Some?
      modifies this, timers
      ensures Some(View()) == OuterStep(old(View()), e)
    {
      match pc
      case NotifyReset | NotifyCancel | Renotify | NotifyPull | NotifyApprovals(_) => NotifyArm();
      case FuseCheck(_) => FuseArm();
      case Return(arm, d) =>
        pc := if d.Terminated? then Done(true) else if d.Awake? && !arm.Drained? then Drain else AtSelect;
      case Drain =>
        var pulled := false;
        if mail.inbox != [] { pulled := PullInbox(); }
        pc := if pulled then Entry(Drained) else AtSelect;
    }

    // ---------------------------------------------------------------- run_and_report

    /** One loop round's top: interjections in, then the shared budget. */
    method TopOfRound()
      requires pc.RoundTop?
      modifies this, timers
      ensures View() == RoundTopStep(config, old(View()))
    {
      var RoundTop(arm, np, r) := pc;
      if r >= config.maxToolRounds {
        round, pc := None, Report(arm, np, MaxRounds);
      } else {
        mail, counts := mail.(heard := mail.heard + mail.prompts, prompts := []), counts.(rounds := counts.rounds + 1);
        if budgetExceeded {
          round, pc := None, Report(arm, np, BudgetExceeded);
        } else {
          pc := DrainApprovals(arm, np, r);
        }
      }
    }

    method Round(e: Event)
      requires ControlInv(View()) && RunPc(pc) && RunStep(config, View(), e).Some?
      modifies this, timers
      ensures Some(View()) == RunStep(config, old(View()), e)
    {
      match pc
      case Entry(arm) =>
        signals := signals.(resetPending := false);
        Settle(Running, WakeEntry(arm));
        pc := Gate(arm);
      case Gate(arm) =>
        if e.GateBlocked? {
          Settle(Parked(FatalError, now), ModalityGate);
          pc := Return(arm, Held);
        } else {
          pc := Mint(arm, 0);
        }
      case Mint(arm, np) => round, pc := Some(RoundToken(false)), RoundTop(arm, np, 0);
      case RoundTop(_, _, _) => TopOfRound();
      case DrainApprovals(arm, np, r) => mail, pc := mail.(told := mail.told + mail.approvals, approvals := []), InRound(arm, np, r);
      case InRound(arm, np, r) =>
        if e.NextRound? {
          pc := RoundTop(arm, np, r + 1);
        } else {
          round, pc := None, Report(arm, np, e.outcome);
        }
    }

    /** Act on the outcome of a round: the match that ends run_and_report or goes round again. */
    method ReportOutcome()
      requires ControlInv(View()) && pc.Report?
      modifies this, timers
      ensures View() == ReportStep(config, old(View()))
    {
      var Report(arm, np, o) := pc;
      if o.ChainExhausted? {
        counts := counts.(transientFails := Saturated(counts.transientFails));
        if counts.transientFails <= config.maxTransientRetries {
          pc := ArmPark(arm, ArmRetry, RetryArmed, Held);
        } else {
          Settle(Parked(TransientRetryExhausted, now), RetriesExhausted);
          pc := Return(arm, Held);
        }
      } else if o.QuotaBlock? {
        pc := ArmPacing(arm);
      } else {
        counts := counts.Reset();
        ReportReset(arm, np, o);
      }
    }

    /** The outcomes that restart the transient count. */
    method ReportReset(arm: Arm, np: nat, o: Outcome)
      requires !o.ChainExhausted? && !o.QuotaBlock? && lifecycle.Running? && pc == Report(arm, np, o)
      modifies this`lifecycle, this`log, this`pc
      ensures
        var s := old(View());
        match VerdictOf(config, s, 0)
        case Settle(next, cause, d) => View() == SettleTo(s, next, cause).(pc := Return(arm, d))
        case GoOn(pc) => View() == s.(pc := pc)
    {
      match o
      case BreakIdle | ParkIdle =>
        Settle(Idle, Break);
        pc := Return(arm, Awake);
      case BreakWait(t) => pc := ArmPark(arm, ArmWait(t), Break, Awake);
      case BareAssistant =>
        var noProgress := Wrapped(np);
        if noProgress > config.maxHeartbeatRounds {
          Settle(Idle, HeartbeatLimit);
          pc := Return(arm, Awake);
        } else {
          pc := Mint(arm, noProgress);
        }
      case Cancelled(interrupted) =>
        if cancelled {
          pc := Return(arm, Terminated);
        } else {
          Settle(Idle, Interrupt(interrupted));
          pc := Return(arm, Awake);
        }
      case BudgetExceeded => pc := ArmPark(arm, ArmWait(DEFAULT_BREAK_TIMEOUT_SECS), BudgetProbe, Held);
      case MaxRounds =>
        Settle(Parked(MaxRoundsExceeded, now), MaxRoundsPark);
        pc := Return(arm, Held);
      case Fatal =>
        Settle(Parked(FatalError, now), FatalPark);
        pc := Return(arm, Held);
    }

    /** arm_park's first half. */
    method Arm(delay: nat)
      requires pc.ArmPark?
      modifies this`counts, this`pc, timers
      ensures View() == ArmParkStep(config, old(View()), delay)
    {
      var ArmPark(arm, park, cause, d) := pc;
      match park
      case ArmWait(t) =>
        var deadline := now + t;
        timers.Arm(WaitFuse, deadline);
        pc := BumpEpoch(arm, Waiting(deadline), cause, d);
      case ArmRetry =>
        var deadline := now + delay;
        timers.Arm(RetryFuse, deadline);
        counts := counts.(retriesArmed := counts.retriesArmed + 1);
        pc := BumpEpoch(arm, Retrying(counts.transientFails, config.maxTransientRetries, deadline), cause, d);
    }

    /** arm_park's second half. */
    method Publish()
      requires pc.BumpEpoch?
      modifies this`signals, this`counts, this`pc
      ensures View() == BumpEpochStep(old(View()))
    {
      signals := signals.(parkEpoch := (signals.parkEpoch + 1) % U64);
      counts := counts.(parks := counts.parks + 1);
      pc := SettlePark(pc.arm, pc.next, pc.cause, pc.disposition);
    }

    /** settle_park. */
    method Mirror()
      requires lifecycle.Running? && pc.SettlePark? && !pc.next.Running?
      modifies this`lifecycle, this`log, this`counts, this`pc
      ensures View() == SettleParkStep(old(View()))
    {
      Settle(pc.next, pc.cause);
      counts := counts.(inForce := counts.parks);
      pc := Return(pc.arm, pc.disposition);
    }

    /** The arming of a park: deadline, then generation, then mirrored state. */
    method Park(e: Event)
      requires ControlInv(View()) && ParkPc(pc) && ParkStep(config, View(), e).Some?
      modifies this, timers
      ensures Some(View()) == ParkStep(config, old(View()), e)
    {
      assert lifecycle.Running? && (pc.SettlePark? ==> !pc.next.Running?);
      hide ReportStep, ArmParkStep, BumpEpochStep, SettleParkStep, ControlInv;
      match pc
      case Report(_, _, _) => ReportOutcome();
      case ArmPark(_, _, _, _) => Arm(e.secs);
      case BumpEpoch(_, _, _, _) => Publish();
      case SettlePark(_, _, _, _) => Mirror();
      case ArmPacing(arm) =>
        timers.Arm(PacingFuse, now + e.secs);
        pc := QuotaSettle(arm);
      case QuotaSettle(arm) =>
        Settle(Parked(QuotaBlocked, now), QuotaBlockedPark);
        pc := Return(arm, Held);
    }

    // ---------------------------------------------------------------- the other tasks

    /** A spawned sleep ends: it stores its fuse's permit, or the lifecycle cancel ended it first. */
    method SleeperEnds(sl: Sleeper, fired: bool)
      requires sl in timers.sleepers
      modifies timers
      ensures
        var fs := old(timers.View());
        timers.View() == (if fired then fs.With(sl.fuse, FuseCell(fs.Cell(sl.fuse).armed, true)) else fs)
                         .(sleepers := fs.sleepers - multiset{sl})
    {
      timers.SleeperEnds(sl);
      if fired { timers.SetPermit(sl.fuse, true); }
    }

    /** A producer that has written will notify. */
    method Owe()
      modifies this`signals, this`mail
      ensures View() == Owing(old(View()))
    {
      signals, mail := signals.(owed := signals.owed + 1), mail.Reached();
    }

    /** A producer writes first and notifies later; a cancel request also reads the generation before that. */
    method Produce(e: Event)
      requires IsProducer(e) && ProducerStep(View(), e).Some?
      modifies this`signals, this`mail
      ensures Some(View()) == ProducerStep(old(View()), e)
    {
      match e
      case WriteApproval(a) =>
        mail := mail.Judged(a);
        Owe();
      case WriteReset =>
        signals := signals.(resetPending := true);
        Owe();
      case Nudge => Owe();
      case Notify => signals := signals.(owed := signals.owed - 1, notify := true);
      case LoadEpoch =>
        signals := signals.(loading := signals.loading + multiset{Stamp(signals.parkEpoch, counts.parks)});
      case StampCancel(st) =>
        signals := signals.(loading := signals.loading - multiset{st}, parkCancel := Some(st));
        Owe();
    }

    /** The clock, the prompt channel and the operator. */
    method Operate(e: Event)
      requires OperatorStep(View(), e).Some?
      modifies this`now, this`mail, this`cancelled, this`round, this`budgetExceeded
      ensures Some(View()) == OperatorStep(old(View()), e)
    {
      match e
      case Tick(secs) => now := now + secs;
      case SendPrompt(p) => mail := mail.Sent(p);
      case ClosePrompts => mail := mail.(promptsOpen := false);
      case CancelLifecycle => cancelled := true;
      case CancelRound => round := Some(RoundToken(true));
      case SetBudget(b) => budgetExceeded := b;
    }

    method World(e: Event)
      requires !IsLoopEvent(e) && !IsDelivery(e) && WorldStep(View(), e).Some?
      modifies this, timers
      ensures Some(View()) == WorldStep(old(View()), e)
    {
      match e
      case Fire(sl) => SleeperEnds(sl, true);
      case Retire(sl) => SleeperEnds(sl, false);
      case WriteApproval(_) | WriteReset | Nudge | Notify | LoadEpoch | StampCancel(_) => Produce(e);
      case Tick(_) | SendPrompt(_) | ClosePrompts | CancelLifecycle | CancelRound | SetBudget(_) => Operate(e);
    }

    /** A delivery pushes its row first and reads the duty flag and the parked mark only then. */
    method Deliver(e: Event)
      requires IsDelivery(e) && DeliveryStep(View(), e).Some?
      modifies this`mail, this`signals
      ensures Some(View()) == DeliveryStep(old(View()), e)
    {
      match e
      case WriteMessage =>
        mail := mail.(inbox := mail.inbox + [|mail.fates|], fates := mail.fates + [InFlight]);
        if Covered(signals) { mail := mail.Reached(); }
      case SeeOffDuty(row) => mail := mail.(fates := mail.fates[row := Buffered]);
      case SeeOnDuty(row) => mail := mail.(fates := mail.fates[row := Cleared]);
      case SeeParked(row, kick) =>
        mail := mail.(fates := mail.fates[row := Deferred]);
        if kick { mail := mail.Sent(row); }
      case Announce(row, inject) =>
        mail := mail.(fates := mail.fates[row := Announced(inject)]);
        if inject { mail := mail.Sent(row); }
        Owe();
      case MarkDelivered(row) => mail := mail.Marked(row);
      case SetDuty(on) =>
        mail := mail.(onDuty := on);
        if on { Owe(); }
    }

    // ---------------------------------------------------------------- the loop

    method Take(e: Event)
      requires ControlInv(View())
      modifies this, timers
      ensures View() == Next(config, old(View()), e)
    {
      hide DeliveryStep, WorldStep, RunStep, ParkStep, SelectStep, OuterStep, ControlInv;
      if Step(config, View(), e).Some? {
        if IsDelivery(e) {
          Deliver(e);
        } else if !IsLoopEvent(e) {
          World(e);
        } else if RunPc(pc) {
          Round(e);
        } else if ParkPc(pc) {
          Park(e);
        } else if pc.AtSelect? {
          Select(e);
        } else {
          Outer(e);
        }
      }
    }

    /** Serve a whole schedule. Every settle on the way is a legal move. */
    method Serve(schedule: seq<Event>)
      requires Inv(config, View())
      modifies this, timers
      ensures View() == Run(config, old(View()), schedule)
      ensures Inv(config, View())
    {
      ghost var start := View();
      for i := 0 to |schedule|
        invariant View() == Run(config, start, schedule[..i])
        invariant Inv(config, View())
      {
        assert schedule[..i + 1][..i] == schedule[..i];
        StepKeeps(config, View(), schedule[i]);
        Take(schedule[i]);
      }
      assert schedule[..|schedule|] == schedule;
    }
  }
}
