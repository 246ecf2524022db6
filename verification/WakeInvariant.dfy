/**
 What every step of the wake loop keeps, part by part. Each part is a predicate over
 one state; the lemmas below show it kept by the environment and by the pieces of the
 loop (a run, the arming of a park, the outer loop). `WakeSafety` puts them together.
 */
module WakeInvariant {
  import opened Lifecycle
  import opened Wrappers
  import opened WakeLoop

  // ------------------------------------------------------------------ control

  /** The pieces of run_and_report during which the agent is Running. */
  predicate InRun(pc: Pc) {
    (RunPc(pc) && !pc.Entry?) || ParkPc(pc) || (pc.Return? && pc.disposition.Terminated?)
  }

  predicate ControlInv(s: State) {
    && (!s.pc.Done? ==> (s.lifecycle.Running? <==> InRun(s.pc)))
    && (s.round.Some? <==> s.pc.RoundTop? || s.pc.DrainApprovals? || s.pc.InRound?)
    && match s.pc
       case Renotify => s.lifecycle.Idle?
       case Drain => RestsAwake(s.lifecycle)
       case Entry(arm) => arm.Drained? ==> RestsAwake(s.lifecycle)
       case Return(_, d) =>
         (d.Awake? ==> RestsAwake(s.lifecycle)) && (d.Held? ==> !s.lifecycle.Idle?) && (d.Terminated? ==> s.cancelled)
       case Done(lifecycleCancel) => lifecycleCancel ==> s.cancelled
       case Report(_, _, o) => o.Cancelled? ==> s.cancelled || o.interrupted
       case ArmPark(_, park, cause, d) =>
         !cause.ParkCancel? && !d.Terminated? && (d.Awake? ==> park.ArmWait?) && !cause.WakeEntry? && !cause.Interrupt?
       case BumpEpoch(_, next, cause, d) => Publishable(next, cause, d)
       case SettlePark(_, next, cause, d) => Publishable(next, cause, d)
       case _ => true
  }

  predicate RestsAwake(l: LifecycleState) { l.Idle? || l.Waiting? }

  predicate Publishable(next: LifecycleState, cause: Cause, d: Disposition) {
    && next.WakePark() && !d.Terminated? && (d.Awake? ==> next.Waiting?)
    && !cause.ParkCancel? && !cause.WakeEntry? && !cause.Interrupt?
  }

  lemma ControlEnv(s: State, e: Event)
    requires !IsLoopEvent(e) && EnvStep(s, e).Some? && ControlInv(s)
    ensures ControlInv(EnvStep(s, e).value)
  { hide DeliveryStep, WorldStep; }

  lemma ControlRun(c: Config, s: State, e: Event)
    requires RunStep(c, s, e).Some? && ControlInv(s)
    ensures ControlInv(RunStep(c, s, e).value)
  {}

  lemma ControlReport(c: Config, s: State)
    requires s.pc.Report? && ControlInv(s)
    ensures ControlInv(ReportStep(c, s))
  {}

  lemma ControlPark(c: Config, s: State, e: Event)
    requires ParkStep(c, s, e).Some? && ControlInv(s)
    ensures ControlInv(ParkStep(c, s, e).value)
  {
    hide ReportStep;
    if s.pc.Report? { ControlReport(c, s); }
  }

  lemma ControlSelect(s: State, e: Event)
    requires s.pc.AtSelect? && SelectStep(s, e).Some? && ControlInv(s)
    ensures ControlInv(SelectStep(s, e).value)
  {}

  lemma ControlNotify(s: State)
    requires s.pc.NotifyReset? || s.pc.NotifyCancel? || s.pc.Renotify? || s.pc.NotifyPull? || s.pc.NotifyApprovals?
    requires ControlInv(s)
    ensures ControlInv(NotifyStep(s))
  {}

  lemma ControlOuter(s: State, e: Event)
    requires OuterStep(s, e).Some? && ControlInv(s)
    ensures ControlInv(OuterStep(s, e).value)
  {
    hide NotifyStep;
    if !s.pc.FuseCheck? && !s.pc.Return? && !s.pc.Drain? { ControlNotify(s); }
  }

  // ------------------------------------------------------------------ armed fuses

  /** An armed deadline still has something that will wake the loop for it. */
  predicate Live(fs: Fuses, f: Fuse, now: nat, checking: bool) {
    var armed := fs.Cell(f).armed;
    armed.Some? ==>
      Sleeper(f, armed.value) in fs.sleepers || ((fs.Cell(f).permit || checking) && armed.value <= now)
  }

  predicate AllLive(fs: Fuses, now: nat, checking: Option<Fuse>) {
    && Live(fs, WaitFuse, now, checking == Some(WaitFuse))
    && Live(fs, RetryFuse, now, checking == Some(RetryFuse))
    && Live(fs, PacingFuse, now, checking == Some(PacingFuse))
  }

  /** The fuse whose permit the loop has taken and not yet acted on. */
  function Checking(pc: Pc): Option<Fuse> { if pc.FuseCheck? then Some(pc.fuse) else None }

  predicate LiveInv(s: State) { s.cancelled || AllLive(s.fuses, s.now, Checking(s.pc)) }

  lemma LiveTick(fs: Fuses, now: nat, later: nat, checking: Option<Fuse>)
    requires AllLive(fs, now, checking) && now <= later
    ensures AllLive(fs, later, checking)
  {}

  lemma LiveFire(fs: Fuses, sl: Sleeper, now: nat, checking: Option<Fuse>)
    requires AllLive(fs, now, checking) && sl in fs.sleepers && sl.deadline <= now
    ensures
      var fired := fs.With(sl.fuse, FuseCell(fs.Cell(sl.fuse).armed, true));
      AllLive(fired.(sleepers := fs.sleepers - multiset{sl}), now, checking)
  {}

  lemma LiveArm(fs: Fuses, f: Fuse, deadline: nat, now: nat)
    requires AllLive(fs, now, None)
    ensures AllLive(fs.Arm(f, deadline), now, None)
  {}

  /** Taking a permit moves its authority to the check. */
  lemma LiveTake(fs: Fuses, f: Fuse, now: nat)
    requires AllLive(fs, now, None) && fs.Cell(f).permit
    ensures AllLive(fs.With(f, FuseCell(fs.Cell(f).armed, false)), now, Some(f))
  {}

  lemma LiveCleared(fs: Fuses, now: nat)
    ensures AllLive(fs.ClearAll(), now, None)
  {}

  /** The check clears a deadline that passed; a check that finds none passed leaves a sleeper behind. */
  lemma LiveChecked(fs: Fuses, f: Fuse, now: nat)
    requires AllLive(fs, now, Some(f))
    ensures AllLive(if fs.Due(f, now) then fs.Clear(f) else fs, now, None)
  {}

  lemma LiveEnv(s: State, e: Event)
    requires !IsLoopEvent(e) && EnvStep(s, e).Some? && LiveInv(s)
    ensures LiveInv(EnvStep(s, e).value)
  {
    hide AllLive, DeliveryStep;
    if !s.cancelled {
      if e.Tick? { LiveTick(s.fuses, s.now, s.now + e.secs, Checking(s.pc)); }
      if e.Fire? { LiveFire(s.fuses, e.sleeper, s.now, Checking(s.pc)); }
    }
  }

  lemma LiveRun(c: Config, s: State, e: Event)
    requires RunStep(c, s, e).Some? && LiveInv(s)
    ensures LiveInv(RunStep(c, s, e).value)
  { hide AllLive; }

  lemma LiveArmPark(c: Config, s: State, delay: nat)
    requires s.pc.ArmPark? && LiveInv(s)
    ensures LiveInv(ArmParkStep(c, s, delay))
  {
    hide AllLive;
    if !s.cancelled {
      match s.pc.park {
        case ArmWait(t) => LiveArm(s.fuses, WaitFuse, s.now + t, s.now);
        case ArmRetry => LiveArm(s.fuses, RetryFuse, s.now + delay, s.now);
      }
    }
  }

  lemma LivePark(c: Config, s: State, e: Event)
    requires ParkStep(c, s, e).Some? && LiveInv(s)
    ensures LiveInv(ParkStep(c, s, e).value)
  {
    hide AllLive, ReportStep, ArmParkStep;
    if s.pc.ArmPark? { LiveArmPark(c, s, e.secs); }
    if !s.cancelled && s.pc.ArmPacing? { LiveArm(s.fuses, PacingFuse, s.now + e.secs, s.now); }
  }

  lemma LiveSelect(s: State, e: Event)
    requires s.pc.AtSelect? && SelectStep(s, e).Some? && LiveInv(s)
    ensures LiveInv(SelectStep(s, e).value)
  {
    hide AllLive;
    LiveCleared(s.fuses, s.now);
    if !s.cancelled && e.TakeFuse? { LiveTake(s.fuses, e.fuse, s.now); }
  }

  lemma LiveOuter(s: State, e: Event)
    requires OuterStep(s, e).Some? && LiveInv(s)
    ensures LiveInv(OuterStep(s, e).value)
  {
    hide AllLive;
    LiveCleared(s.fuses, s.now);
    if !s.cancelled && s.pc.FuseCheck? { LiveChecked(s.fuses, s.pc.fuse, s.now); }
  }

  // ------------------------------------------------------------------ states mirror their fuses

  /** The state `l` names the deadline its fuse is armed with. */
  predicate Mirrors(fs: Fuses, l: LifecycleState) {
    match l
    case Waiting(until) => fs.wait.armed == Some(until)
    case Retrying(_, _, at) => fs.retry.armed == Some(at)
    case Parked(reason, _) => reason.QuotaBlocked? ==> fs.pacing.armed.Some?
    case _ => true
  }

  predicate MirrorInv(s: State) {
    match s.pc
    case Entry(arm) =>
      && (arm == Fired(WaitFuse) && s.lifecycle.Waiting? ==> s.lifecycle.until <= s.now)
      && (arm == Fired(RetryFuse) && s.lifecycle.Retrying? ==> s.lifecycle.retryAt <= s.now)
      && (arm.Notified? ==> !s.lifecycle.Parked?)
    case NotifyApprovals(_) => !s.lifecycle.Parked? && Mirrors(s.fuses, s.lifecycle)
    case BumpEpoch(_, next, _, _) => s.lifecycle.Running? ==> Mirrors(s.fuses, next)
    case SettlePark(_, next, _, _) => s.lifecycle.Running? ==> Mirrors(s.fuses, next)
    case QuotaSettle(_) => s.fuses.pacing.armed.Some?
    case _ => Mirrors(s.fuses, s.lifecycle)
  }

  lemma MirrorEnv(s: State, e: Event)
    requires !IsLoopEvent(e) && EnvStep(s, e).Some? && MirrorInv(s)
    ensures MirrorInv(EnvStep(s, e).value)
  { hide DeliveryStep, WorldStep; }

  lemma MirrorRun(c: Config, s: State, e: Event)
    requires RunStep(c, s, e).Some? && ControlInv(s) && MirrorInv(s)
    ensures MirrorInv(RunStep(c, s, e).value)
  {}

  lemma MirrorArm(c: Config, s: State, delay: nat)
    requires s.pc.ArmPark? && ControlInv(s) && MirrorInv(s)
    ensures MirrorInv(ArmParkStep(c, s, delay))
  {}

  lemma MirrorPark(c: Config, s: State, e: Event)
    requires ParkStep(c, s, e).Some? && ControlInv(s) && MirrorInv(s)
    ensures MirrorInv(ParkStep(c, s, e).value)
  {
    hide ReportStep, ArmParkStep;
    if s.pc.ArmPark? { MirrorArm(c, s, e.secs); }
  }

  lemma MirrorSelect(s: State, e: Event)
    requires s.pc.AtSelect? && SelectStep(s, e).Some? && ControlInv(s) && MirrorInv(s)
    ensures MirrorInv(SelectStep(s, e).value)
  {}

  lemma MirrorNotify(s: State)
    requires s.pc.NotifyReset? || s.pc.NotifyCancel? || s.pc.Renotify? || s.pc.NotifyPull? || s.pc.NotifyApprovals?
    requires ControlInv(s) && MirrorInv(s)
    ensures MirrorInv(NotifyStep(s))
  {}

  lemma MirrorOuter(s: State, e: Event)
    requires OuterStep(s, e).Some? && ControlInv(s) && MirrorInv(s)
    ensures MirrorInv(OuterStep(s, e).value)
  {
    hide NotifyStep;
    if !s.pc.FuseCheck? && !s.pc.Return? && !s.pc.Drain? { MirrorNotify(s); }
  }

  // ------------------------------------------------------------------ wakeups

  /** Where undelivered mail must already be covered: idle at rest, or past the wake's last pull. */
  predicate MailOwed(s: State) {
    match s.pc
    case AtSelect | FuseCheck(_) => s.lifecycle.Idle?
    case NotifyApprovals(_) => true
    case NotifyReset | NotifyCancel | Renotify | NotifyPull | Drain | Done(_) => false
    case Entry(arm) => arm.Drained?
    case Gate(arm) => arm.Drained?
    case Mint(arm, _) => arm.Drained?
    case RoundTop(arm, _, _) => arm.Drained?
    case DrainApprovals(arm, _, _) => arm.Drained?
    case InRound(arm, _, _) => arm.Drained?
    case Report(arm, _, _) => arm.Drained?
    case ArmPark(arm, _, _, _) => arm.Drained?
    case BumpEpoch(arm, _, _, _) => arm.Drained?
    case SettlePark(arm, _, _, _) => arm.Drained?
    case ArmPacing(arm) => arm.Drained?
    case QuotaSettle(arm) => arm.Drained?
    case Return(arm, _) => arm.Drained?
  }

  /** Where pending approvals must already be covered: past the drain at the top of a round. */
  predicate ApprovalsOwed(s: State) {
    match s.pc
    case AtSelect | FuseCheck(_) | Drain | Return(_, _) => s.lifecycle.Idle?
    case InRound(_, _, _) => true
    case Report(_, _, o) => !o.BudgetExceeded? && !o.MaxRounds?
    case _ => false
  }

  /** A wake on its way reaches every row written so far, and a row it was to reach is never left without one. */
  predicate WakeInv(s: State) {
    && ReachInv(s.mail, s.signals)
    && (MailOwed(s) && s.mail.HasReached() ==> Covered(s.signals))
    && (ApprovalsOwed(s) && s.mail.approvals != [] ==> Covered(s.signals))
  }

  predicate ReachInv(m: Mail, g: Signals) {
    && m.reached <= |m.fates|
    && (Covered(g) ==> m.reached == |m.fates|)
  }

  /** A stamped cancel or a pending reset never waits without a wake on its way. */
  predicate CellInv(s: State) {
    && (s.signals.parkCancel.Some? && !s.pc.NotifyReset? && !s.pc.NotifyCancel? ==> Covered(s.signals))
    && (s.signals.resetPending && !s.pc.NotifyReset? ==> Covered(s.signals))
  }

  /** A delivery step leaves no row that a wake was to reach without one. */
  lemma DeliveryReaches(s: State, e: Event)
    requires DeliveryStep(s, e).Some? && MailInv(s.mail) && ReachInv(s.mail, s.signals)
    ensures
      var s' := DeliveryStep(s, e).value;
      && ReachInv(s'.mail, s'.signals)
      && (Covered(s.signals) ==> Covered(s'.signals))
      && (s'.mail.HasReached() ==> Covered(s'.signals) || s.mail.HasReached())
      && s'.mail.approvals == s.mail.approvals
  {
    if e.MarkDelivered? { MailMarked(s.mail, e.row); }
    if e.WriteMessage? { MailWritten(s.mail, s.mail.reached); }
    hide MailInv;
  }

  lemma WakeEnv(s: State, e: Event)
    requires !IsLoopEvent(e) && EnvStep(s, e).Some? && MailInv(s.mail) && WakeInv(s)
    ensures WakeInv(EnvStep(s, e).value)
  {
    hide DeliveryStep, MailInv;
    if IsDelivery(e) { DeliveryReaches(s, e); }
  }

  lemma WakeRun(c: Config, s: State, e: Event)
    requires RunStep(c, s, e).Some? && ControlInv(s) && WakeInv(s)
    ensures WakeInv(RunStep(c, s, e).value)
  {}

  lemma WakePark(c: Config, s: State, e: Event)
    requires ParkStep(c, s, e).Some? && ControlInv(s) && WakeInv(s)
    ensures WakeInv(ParkStep(c, s, e).value)
  {}

  lemma WakeSelect(s: State, e: Event)
    requires s.pc.AtSelect? && SelectStep(s, e).Some? && ControlInv(s) && WakeInv(s)
    ensures WakeInv(SelectStep(s, e).value)
  {}

  lemma WakeNotify(s: State)
    requires s.pc.NotifyReset? || s.pc.NotifyCancel? || s.pc.Renotify? || s.pc.NotifyPull? || s.pc.NotifyApprovals?
    requires ControlInv(s) && WakeInv(s)
    ensures WakeInv(NotifyStep(s))
  {}

  lemma WakeOuter(s: State, e: Event)
    requires OuterStep(s, e).Some? && ControlInv(s) && WakeInv(s)
    ensures WakeInv(OuterStep(s, e).value)
  {
    hide NotifyStep;
    if !s.pc.FuseCheck? && !s.pc.Return? && !s.pc.Drain? { WakeNotify(s); }
  }

  lemma CellWorld(s: State, e: Event)
    requires !IsLoopEvent(e) && !IsDelivery(e) && WorldStep(s, e).Some? && CellInv(s)
    ensures CellInv(WorldStep(s, e).value)
  {}

  lemma CellEnv(s: State, e: Event)
    requires !IsLoopEvent(e) && EnvStep(s, e).Some? && CellInv(s)
    ensures CellInv(EnvStep(s, e).value)
  {
    hide DeliveryStep, WorldStep;
    if !IsDelivery(e) { CellWorld(s, e); }
  }

  lemma CellRun(c: Config, s: State, e: Event)
    requires RunStep(c, s, e).Some? && CellInv(s)
    ensures CellInv(RunStep(c, s, e).value)
  {}

  lemma CellPark(c: Config, s: State, e: Event)
    requires ParkStep(c, s, e).Some? && CellInv(s)
    ensures CellInv(ParkStep(c, s, e).value)
  {}

  lemma CellSelect(s: State, e: Event)
    requires s.pc.AtSelect? && SelectStep(s, e).Some? && CellInv(s)
    ensures CellInv(SelectStep(s, e).value)
  {}

  lemma CellOuter(s: State, e: Event)
    requires OuterStep(s, e).Some? && CellInv(s)
    ensures CellInv(OuterStep(s, e).value)
  {}

  // ------------------------------------------------------------------ park cancels

  /** The generation published for the n-th park. */
  function Generation(n: nat): nat { n % U64 }

  lemma NextGeneration(n: nat)
    ensures (Generation(n) + 1) % U64 == Generation(n + 1)
  {}

  /** A stamp carries the generation of the park it names, and that park had been published. */
  predicate GoodStamp(parks: nat, st: Stamp) { st.epoch == Generation(st.park) && st.park <= parks }

  ghost predicate GoodStamps(parks: nat, sts: multiset<Stamp>) {
    forall st :: st in sts ==> GoodStamp(parks, st)
  }

  ghost predicate CancelInv(s: State) {
    && s.signals.parkEpoch == Generation(s.counts.parks)
    && GoodStamps(s.counts.parks, s.signals.loading)
    && (s.signals.parkCancel.Some? ==> GoodStamp(s.counts.parks, s.signals.parkCancel.value))
    && (s.lifecycle.WakePark() ==> s.counts.inForce == s.counts.parks)
  }

  /** The requests a step of the world leaves are those it found, and at most one read now. */
  lemma CancelWorld(s: State, e: Event)
    requires !IsLoopEvent(e) && !IsDelivery(e) && WorldStep(s, e).Some? && CancelInv(s)
    ensures
      var s' := WorldStep(s, e).value;
      GoodStamps(s.counts.parks, s'.signals.loading) &&
      (s'.signals.parkCancel.Some? ==> GoodStamp(s.counts.parks, s'.signals.parkCancel.value))
  {
    var s' := WorldStep(s, e).value;
    hide GoodStamp;
    assert GoodStamp(s.counts.parks, Stamp(s.signals.parkEpoch, s.counts.parks)) by { StampIsGood(s); }
  }

  lemma StampIsGood(s: State)
    requires CancelInv(s)
    ensures GoodStamp(s.counts.parks, Stamp(s.signals.parkEpoch, s.counts.parks))
  {}

  lemma CancelEnv(s: State, e: Event)
    requires !IsLoopEvent(e) && EnvStep(s, e).Some? && CancelInv(s)
    ensures CancelInv(EnvStep(s, e).value)
  {
    hide DeliveryStep, WorldStep, GoodStamps, GoodStamp;
    if !IsDelivery(e) { CancelWorld(s, e); }
  }

  lemma CancelRun(c: Config, s: State, e: Event)
    requires RunStep(c, s, e).Some? && CancelInv(s)
    ensures CancelInv(RunStep(c, s, e).value)
  {}

  lemma CancelBump(s: State)
    requires s.pc.BumpEpoch? && ControlInv(s) && CancelInv(s)
    ensures CancelInv(BumpEpochStep(s))
  { NextGeneration(s.counts.parks); }

  lemma CancelPark(c: Config, s: State, e: Event)
    requires ParkStep(c, s, e).Some? && ControlInv(s) && CancelInv(s)
    ensures CancelInv(ParkStep(c, s, e).value)
  {
    hide ReportStep, ArmParkStep, BumpEpochStep;
    if s.pc.BumpEpoch? { CancelBump(s); }
  }

  lemma CancelSelect(s: State, e: Event)
    requires s.pc.AtSelect? && SelectStep(s, e).Some? && CancelInv(s)
    ensures CancelInv(SelectStep(s, e).value)
  {}

  lemma CancelOuter(s: State, e: Event)
    requires OuterStep(s, e).Some? && CancelInv(s)
    ensures CancelInv(OuterStep(s, e).value)
  {}

  // ------------------------------------------------------------------ mail

  ghost predicate Ascending(rows: seq<nat>) { forall i, j :: 0 <= i < j < |rows| ==> rows[i] < rows[j] }

  /** Every row is either undelivered or delivered, once; the undelivered ones keep the order they were written in. */
  ghost predicate MailInv(m: Mail) {
    && Ascending(m.inbox)
    && (forall row: nat :: multiset(m.delivered + m.inbox)[row] == if row < |m.fates| then 1 else 0)
    && (forall row: nat :: row < |m.fates| && m.fates[row].Announced? ==> row < m.reached)
  }

  lemma {:induction false} WithoutOne(rows: seq<nat>, row: nat)
    requires row in rows
    ensures multiset(Without(rows, row)) + multiset{row} == multiset(rows)
  {
    assert rows == [rows[0]] + rows[1..];
    if rows[0] != row { WithoutOne(rows[1..], row); }
  }

  lemma {:induction false} WithoutAscends(rows: seq<nat>, row: nat)
    requires Ascending(rows)
    ensures Ascending(Without(rows, row)) && (Without(rows, row) != [] ==> rows != [] && rows[0] <= Without(rows, row)[0])
  {
    if rows != [] {
      var rest := Without(rows[1..], row);
      assert Without(rows, row) == if rows[0] == row then rows[1..] else [rows[0]] + rest;
      WithoutAscends(rows[1..], row);
      hide Without;
      var kept := [rows[0]] + rest;
      forall i, j | 0 <= i < j < |kept| ensures kept[i] < kept[j] {
        if i == 0 { assert rows[0] < rest[0] && (j == 1 || rest[0] < rest[j - 1]); }
      }
    }
  }

  lemma MailMarked(m: Mail, row: nat)
    requires MailInv(m)
    ensures MailInv(m.Marked(row)) && (m.Marked(row).HasReached() ==> m.HasReached())
  {
    if row in m.inbox {
      WithoutOne(m.inbox, row);
      WithoutAscends(m.inbox, row);
      var rest := Without(m.inbox, row);
      assert multiset(m.delivered + [row] + rest) == multiset(m.delivered) + multiset{row} + multiset(rest);
      assert multiset(m.delivered + [row] + rest) == multiset(m.delivered + m.inbox);
    }
  }

  lemma MailWritten(m: Mail, reached: nat)
    requires MailInv(m) && m.reached <= reached
    ensures MailInv(m.(inbox := m.inbox + [|m.fates|], fates := m.fates + [InFlight], reached := reached))
  {
    var rows := m.inbox;
    forall i | 0 <= i < |rows| ensures rows[i] < |m.fates| {
      assert multiset(m.delivered + rows)[rows[i]] > 0;
    }
    assert m.delivered + (rows + [|m.fates|]) == (m.delivered + rows) + [|m.fates|];
  }

  lemma {:induction false} RestoredRows(rows: seq<nat>, row: nat)
    requires forall i :: 0 <= i < |rows| ==> rows[i] == i
    ensures multiset(rows)[row] == if row < |rows| then 1 else 0
  {
    if rows != [] {
      var n := |rows| - 1;
      RestoredRows(rows[..n], row);
      assert rows == rows[..n] + [rows[n]];
    }
  }

  lemma MailRestored(m: Mail)
    requires RestoredMail(m)
    ensures MailInv(m)
  {
    assert m.delivered + m.inbox == m.inbox;
    forall row: nat { RestoredRows(m.inbox, row); }
  }

  /** Each row counts once, on one side or the other. */
  lemma MailCounted(m: Mail, row: nat)
    requires MailInv(m)
    ensures multiset(m.delivered)[row] + multiset(m.inbox)[row] == if row < |m.fates| then 1 else 0
  {
    assert multiset(m.delivered + m.inbox)[row] == multiset(m.delivered)[row] + multiset(m.inbox)[row];
  }

  lemma MailPulled(m: Mail)
    requires MailInv(m)
    ensures MailInv(m.Pulled())
  {}

  lemma MailJudged(m: Mail, row: nat, f: Fate, reached: nat)
    requires MailInv(m) && row < |m.fates| && m.reached <= reached && (f.Announced? ==> row < reached)
    ensures MailInv(m.(fates := m.fates[row := f], reached := reached))
  {}

  lemma MailDelivery(s: State, e: Event)
    requires DeliveryStep(s, e).Some? && MailInv(s.mail) && s.mail.reached <= |s.mail.fates|
    ensures MailInv(DeliveryStep(s, e).value.mail)
  {
    var m := s.mail;
    match e
    case WriteMessage => MailWritten(m, if Covered(s.signals) then |m.fates| + 1 else m.reached);
    case SeeOffDuty(row) => MailJudged(m, row, Buffered, m.reached);
    case SeeOnDuty(row) => MailJudged(m, row, Cleared, m.reached);
    case SeeParked(row, _) => MailJudged(m, row, Deferred, m.reached);
    case Announce(row, inject) => MailJudged(m, row, Announced(inject), |m.fates|);
    case MarkDelivered(row) => MailMarked(m, row);
    case SetDuty(_) =>
  }

  /** What the mail invariant does not read. */
  lemma MailFrame(m: Mail, m': Mail)
    requires MailInv(m) && m'.inbox == m.inbox && m'.fates == m.fates && m'.delivered == m.delivered && m.reached <= m'.reached
    ensures MailInv(m')
  {}

  lemma MailEnv(s: State, e: Event)
    requires !IsLoopEvent(e) && EnvStep(s, e).Some? && MailInv(s.mail) && s.mail.reached <= |s.mail.fates|
    ensures MailInv(EnvStep(s, e).value.mail)
  {
    hide MailInv, DeliveryStep;
    if IsDelivery(e) {
      MailDelivery(s, e);
    } else {
      hide WorldStep;
      MailFrame(s.mail, EnvStep(s, e).value.mail);
    }
  }

  lemma MailOuter(s: State, e: Event)
    requires OuterStep(s, e).Some? && MailInv(s.mail) && s.mail.reached <= |s.mail.fates|
    ensures MailInv(OuterStep(s, e).value.mail)
  {
    MailPulled(s.mail);
    MailFrame(s.mail, s.mail.Reached());
    hide MailInv, OuterStep;
  }

  // ------------------------------------------------------------------ prompts and verdicts

  /** Every prompt and every verdict is heard or still waits, in the order given. */
  predicate TalkInv(m: Mail) { m.heard + m.prompts == m.sent && m.told + m.approvals == m.judged }

  /** What the loop and the producers do with prompts and verdicts keeps them in order. */
  lemma TalkKept(m: Mail, x: nat)
    requires TalkInv(m)
    ensures TalkInv(m.Sent(x)) && TalkInv(m.HeardAll()) && TalkInv(m.Judged(x)) && TalkInv(m.ToldAll())
    ensures m.prompts != [] ==> TalkInv(m.HeardOne())
  {
    assert m.heard + (m.prompts + [x]) == m.heard + m.prompts + [x];
    assert m.told + (m.approvals + [x]) == m.told + m.approvals + [x];
    if m.prompts != [] { assert m.prompts == [m.prompts[0]] + m.prompts[1..]; }
  }

  lemma TalkDelivery(s: State, e: Event)
    requires DeliveryStep(s, e).Some? && TalkInv(s.mail)
    ensures TalkInv(DeliveryStep(s, e).value.mail)
  {
    match e
    case SeeParked(row, _) => TalkKept(s.mail, row);
    case Announce(row, _) => TalkKept(s.mail, row);
    case _ =>
  }

  lemma TalkProducer(s: State, e: Event)
    requires ProducerStep(s, e).Some? && TalkInv(s.mail)
    ensures TalkInv(ProducerStep(s, e).value.mail)
  { if e.WriteApproval? { TalkKept(s.mail, e.approval); } }

  lemma TalkOperator(s: State, e: Event)
    requires OperatorStep(s, e).Some? && TalkInv(s.mail)
    ensures TalkInv(OperatorStep(s, e).value.mail)
  { if e.SendPrompt? { TalkKept(s.mail, e.prompt); } }

  lemma TalkEnv(s: State, e: Event)
    requires !IsLoopEvent(e) && EnvStep(s, e).Some? && TalkInv(s.mail)
    ensures TalkInv(EnvStep(s, e).value.mail)
  {
    hide TalkInv, DeliveryStep, ProducerStep, SleeperStep, OperatorStep;
    if IsDelivery(e) { TalkDelivery(s, e); }
    else if IsProducer(e) { TalkProducer(s, e); }
    else if !e.Fire? && !e.Retire? { TalkOperator(s, e); }
  }

  lemma TalkRun(c: Config, s: State, e: Event)
    requires RunStep(c, s, e).Some? && TalkInv(s.mail)
    ensures TalkInv(RunStep(c, s, e).value.mail)
  { TalkKept(s.mail, 0); }

  lemma TalkSelect(s: State, e: Event)
    requires s.pc.AtSelect? && SelectStep(s, e).Some? && TalkInv(s.mail)
    ensures TalkInv(SelectStep(s, e).value.mail)
  { TalkKept(s.mail, 0); }

  // ------------------------------------------------------------------ retries

  predicate RetryState(c: Config, k: Counts, l: LifecycleState) {
    match l
    case Retrying(attempt, most, _) =>
      attempt == k.transientFails && most == c.maxTransientRetries && 1 <= attempt <= most
    case Parked(reason, _) => reason.TransientRetryExhausted? ==> k.transientFails > c.maxTransientRetries
    case _ => true
  }

  predicate RetryInv(c: Config, s: State) {
    var k := s.counts;
    var arming := s.pc.ArmPark? && s.pc.park.ArmRetry?;
    && k.transientFails <= U32_MAX
    && (arming ==> 1 <= k.transientFails <= c.maxTransientRetries)
    && (c.maxTransientRetries < U32_MAX ==>
        k.retriesArmed ==
          if arming then k.transientFails - 1
          else if k.transientFails <= c.maxTransientRetries then k.transientFails
          else c.maxTransientRetries)
    && (s.pc.BumpEpoch? || s.pc.SettlePark? ==> RetryState(c, k, s.pc.next))
    && (!s.lifecycle.Running? ==> RetryState(c, k, s.lifecycle))
  }

  lemma RetryEnv(c: Config, s: State, e: Event)
    requires !IsLoopEvent(e) && EnvStep(s, e).Some? && RetryInv(c, s)
    ensures RetryInv(c, EnvStep(s, e).value)
  { hide DeliveryStep, WorldStep; }

  lemma RetryRun(c: Config, s: State, e: Event)
    requires RunStep(c, s, e).Some? && ControlInv(s) && RetryInv(c, s)
    ensures RetryInv(c, RunStep(c, s, e).value)
  {}

  lemma RetryReport(c: Config, s: State)
    requires s.pc.Report? && ControlInv(s) && RetryInv(c, s)
    ensures RetryInv(c, ReportStep(c, s))
  {}

  lemma RetryPark(c: Config, s: State, e: Event)
    requires ParkStep(c, s, e).Some? && ControlInv(s) && RetryInv(c, s)
    ensures RetryInv(c, ParkStep(c, s, e).value)
  {
    hide ReportStep;
    if s.pc.Report? { RetryReport(c, s); }
  }

  lemma RetrySelect(c: Config, s: State, e: Event)
    requires s.pc.AtSelect? && SelectStep(s, e).Some? && RetryInv(c, s)
    ensures RetryInv(c, SelectStep(s, e).value)
  {}

  lemma RetryNotify(c: Config, s: State)
    requires s.pc.NotifyReset? || s.pc.NotifyCancel? || s.pc.Renotify? || s.pc.NotifyPull? || s.pc.NotifyApprovals?
    requires RetryInv(c, s)
    ensures RetryInv(c, NotifyStep(s))
  {}

  lemma RetryOuter(c: Config, s: State, e: Event)
    requires OuterStep(s, e).Some? && RetryInv(c, s)
    ensures RetryInv(c, OuterStep(s, e).value)
  {
    hide NotifyStep;
    if !s.pc.FuseCheck? && !s.pc.Return? && !s.pc.Drain? { RetryNotify(c, s); }
  }

  // ------------------------------------------------------------------ rounds

  /** The most rounds one run of run_and_report can make. */
  function RunBound(c: Config): nat { (c.maxHeartbeatRounds + 1) * c.maxToolRounds }

  /** Rounds the wake may already have spent when a run for `arm` begins. */
  function Base(c: Config, arm: Arm): nat { if arm.Drained? then RunBound(c) else 0 }

  /** Rounds spent after `np` whole laps and `r` rounds of the next. */
  predicate Within(c: Config, arm: Arm, np: nat, r: nat, rounds: nat) {
    np <= c.maxHeartbeatRounds && r <= c.maxToolRounds && rounds <= Base(c, arm) + np * c.maxToolRounds + r
  }

  predicate RoundInv(c: Config, s: State) {
    var n := s.counts.rounds;
    match s.pc
    case Entry(arm) => n <= Base(c, arm)
    case Gate(arm) => n <= Base(c, arm)
    case Mint(arm, np) => Within(c, arm, np, 0, n)
    case RoundTop(arm, np, r) => Within(c, arm, np, r, n)
    case DrainApprovals(arm, np, r) => Within(c, arm, np, r + 1, n)
    case InRound(arm, np, r) => Within(c, arm, np, r + 1, n)
    case Report(arm, np, _) => Within(c, arm, np, c.maxToolRounds, n)
    case ArmPark(arm, _, _, _) => n <= Base(c, arm) + RunBound(c)
    case BumpEpoch(arm, _, _, _) => n <= Base(c, arm) + RunBound(c)
    case SettlePark(arm, _, _, _) => n <= Base(c, arm) + RunBound(c)
    case ArmPacing(arm) => n <= Base(c, arm) + RunBound(c)
    case QuotaSettle(arm) => n <= Base(c, arm) + RunBound(c)
    case Return(arm, _) => n <= Base(c, arm) + RunBound(c)
    case Drain => n <= RunBound(c)
    case _ => n <= 2 * RunBound(c)
  }

  /** However far a run got, it is within its bound. */
  lemma Fits(c: Config, arm: Arm, np: nat, r: nat, rounds: nat)
    requires Within(c, arm, np, r, rounds)
    ensures rounds <= Base(c, arm) + RunBound(c) <= 2 * RunBound(c)
  {
    assert np * c.maxToolRounds + c.maxToolRounds == (np + 1) * c.maxToolRounds;
    assert (np + 1) * c.maxToolRounds <= (c.maxHeartbeatRounds + 1) * c.maxToolRounds;
  }

  /** A finished lap leaves room for the next one. */
  lemma Lap(c: Config, arm: Arm, np: nat, rounds: nat)
    requires Within(c, arm, np, c.maxToolRounds, rounds) && np < c.maxHeartbeatRounds
    ensures Within(c, arm, np + 1, 0, rounds)
  {
    assert np * c.maxToolRounds + c.maxToolRounds == (np + 1) * c.maxToolRounds;
  }

  lemma RoundEnv(c: Config, s: State, e: Event)
    requires !IsLoopEvent(e) && EnvStep(s, e).Some? && RoundInv(c, s)
    ensures RoundInv(c, EnvStep(s, e).value)
  { hide RunBound, Base, Within, DeliveryStep, WorldStep; }

  lemma RoundRun(c: Config, s: State, e: Event)
    requires RunStep(c, s, e).Some? && RoundInv(c, s)
    ensures RoundInv(c, RunStep(c, s, e).value)
  {}

  lemma RoundReport(c: Config, s: State)
    requires s.pc.Report? && c.maxHeartbeatRounds < U32_MAX && RoundInv(c, s)
    ensures RoundInv(c, ReportStep(c, s))
  {
    hide RunBound, Base, Within;
    var Report(arm, np, o) := s.pc;
    Fits(c, arm, np, c.maxToolRounds, s.counts.rounds);
    NoMoreLaps(c, arm, np, s.counts.rounds);
    if np < c.maxHeartbeatRounds { Lap(c, arm, np, s.counts.rounds); }
  }

  lemma NoMoreLaps(c: Config, arm: Arm, np: nat, rounds: nat)
    requires Within(c, arm, np, c.maxToolRounds, rounds)
    ensures np <= c.maxHeartbeatRounds
  {}

  lemma RoundPark(c: Config, s: State, e: Event)
    requires c.maxHeartbeatRounds < U32_MAX
    requires ParkStep(c, s, e).Some? && RoundInv(c, s)
    ensures RoundInv(c, ParkStep(c, s, e).value)
  {
    hide RunBound, Base, Within, ReportStep;
    if s.pc.Report? { RoundReport(c, s); }
  }

  lemma RoundSelect(c: Config, s: State, e: Event)
    requires s.pc.AtSelect? && SelectStep(s, e).Some? && ControlInv(s) && RoundInv(c, s)
    ensures RoundInv(c, SelectStep(s, e).value)
  {}

  lemma RoundNotify(c: Config, s: State)
    requires s.pc.NotifyReset? || s.pc.NotifyCancel? || s.pc.Renotify? || s.pc.NotifyPull? || s.pc.NotifyApprovals?
    requires ControlInv(s) && RoundInv(c, s)
    ensures RoundInv(c, NotifyStep(s))
  {}

  lemma RoundOuter(c: Config, s: State, e: Event)
    requires OuterStep(s, e).Some? && ControlInv(s) && RoundInv(c, s)
    ensures RoundInv(c, OuterStep(s, e).value)
  {
    hide NotifyStep;
    if !s.pc.FuseCheck? && !s.pc.Return? && !s.pc.Drain? { RoundNotify(c, s); }
  }

  // ------------------------------------------------------------------ the log of moves

  /** What one logged move must satisfy on its own. */
  predicate GoodMove(m: Move) {
    && Legal(m.from, m.to)
    && (m.to.Running? <==> m.cause.WakeEntry?)
    && match m.cause
       case WakeEntry(arm) =>
         && (arm == Fired(WaitFuse) && m.from.Waiting? ==> m.from.until <= m.at)
         && (arm == Fired(RetryFuse) && m.from.Retrying? ==> m.from.retryAt <= m.at)
         && (arm.Notified? ==> !m.from.Parked?)
         && (arm.Drained? ==> RestsAwake(m.from))
       case Interrupt(interrupted) => interrupted
       case ParkCancel(named, ended) =>
         m.from.WakePark() && m.to.Idle? && named <= ended && Generation(named) == Generation(ended)
       case _ => true
  }

  /** A step logs at most one move, a good one, from the state it left to the one it reached. */
  predicate OneMove(s: State, s': State) {
    || (s'.log == s.log && s'.lifecycle == s.lifecycle && s.now <= s'.now)
    || (&& s'.now == s.now
        && |s'.log| == |s.log| + 1
        && (var m := s'.log[|s.log|];
            s'.log == s.log + [m] && GoodMove(m) && m.from == s.lifecycle && m.to == s'.lifecycle && m.at == s.now))
  }

  ghost predicate LogInv(s: State) {
    && (forall i :: 0 <= i < |s.log| ==> GoodMove(s.log[i]) && s.log[i].at <= s.now)
    && (forall i, j :: 0 <= i < j < |s.log| ==> s.log[i].at <= s.log[j].at)
    && (|s.log| > 0 ==> s.log[0].from == Idle)
    && (forall i {:trigger s.log[i].to} :: 0 <= i < |s.log| - 1 ==> s.log[i].to == s.log[i + 1].from)
    && s.lifecycle == if s.log == [] then Idle else s.log[|s.log| - 1].to
  }

  lemma LogGrows(s: State, s': State)
    requires LogInv(s) && OneMove(s, s')
    ensures LogInv(s')
  {}

  lemma MoveEnv(s: State, e: Event)
    requires !IsLoopEvent(e) && EnvStep(s, e).Some?
    ensures OneMove(s, EnvStep(s, e).value)
  { hide DeliveryStep, WorldStep; }

  lemma MoveRun(c: Config, s: State, e: Event)
    requires RunStep(c, s, e).Some? && ControlInv(s) && MirrorInv(s)
    ensures OneMove(s, RunStep(c, s, e).value)
  {}

  lemma MovePark(c: Config, s: State, e: Event)
    requires ParkStep(c, s, e).Some? && ControlInv(s)
    ensures OneMove(s, ParkStep(c, s, e).value)
  {}

  lemma MoveSelect(s: State, e: Event)
    requires s.pc.AtSelect? && SelectStep(s, e).Some? && ControlInv(s) && CancelInv(s)
    ensures OneMove(s, SelectStep(s, e).value)
  {}

  lemma MoveNotify(s: State)
    requires s.pc.NotifyReset? || s.pc.NotifyCancel? || s.pc.Renotify? || s.pc.NotifyPull? || s.pc.NotifyApprovals?
    requires ControlInv(s) && CancelInv(s)
    ensures OneMove(s, NotifyStep(s))
  {}

  lemma MoveOuter(s: State, e: Event)
    requires OuterStep(s, e).Some? && ControlInv(s) && CancelInv(s)
    ensures OneMove(s, OuterStep(s, e).value)
  {
    hide NotifyStep;
    if !s.pc.FuseCheck? && !s.pc.Return? && !s.pc.Drain? { MoveNotify(s); }
  }
}
