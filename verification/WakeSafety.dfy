/**
 The theorems about every run of the wake loop, whatever the environment does and
 however its steps interleave with the loop's.
 */
module WakeSafety {
  import opened Lifecycle
  import opened Wrappers
  import opened WakeLoop
  import opened WakeInvariant

  ghost predicate Inv(c: Config, s: State) {
    && ControlInv(s) && LiveInv(s) && MirrorInv(s) && WakeInv(s) && CellInv(s) && CancelInv(s)
    && MailInv(s.mail) && TalkInv(s.mail) && RetryInv(c, s) && LogInv(s)
    && (c.maxHeartbeatRounds < U32_MAX ==> RoundInv(c, s))
  }

  /** `states` is what a schedule leads through, from a state a task starts in. */
  ghost predicate IsRun(c: Config, states: seq<State>, es: seq<Event>) {
    && |states| == |es| + 1 && Initially(states[0])
    && forall i {:trigger es[i]} :: 0 <= i < |es| ==> states[i + 1] == Next(c, states[i], es[i])
  }

  ghost predicate Reachable(c: Config, s: State) {
    exists states, es :: IsRun(c, states, es) && s == states[|es|]
  }

  lemma EnvKeeps(c: Config, s: State, e: Event)
    requires Inv(c, s) && !IsLoopEvent(e) && EnvStep(s, e).Some?
    ensures Inv(c, EnvStep(s, e).value)
  {
    hide EnvStep;
    var s' := EnvStep(s, e).value;
    MailEnv(s, e);
    assert ControlInv(s') by { ControlEnv(s, e); }
    assert LiveInv(s') by { LiveEnv(s, e); }
    assert MirrorInv(s') by { MirrorEnv(s, e); }
    assert WakeInv(s') by { WakeEnv(s, e); }
    assert CellInv(s') by { CellEnv(s, e); }
    assert CancelInv(s') by { CancelEnv(s, e); }
    assert RetryInv(c, s') by { RetryEnv(c, s, e); }
    assert LogInv(s') by { MoveEnv(s, e); LogGrows(s, s'); }
    assert TalkInv(s'.mail) by { TalkEnv(s, e); }
    if c.maxHeartbeatRounds < U32_MAX { RoundEnv(c, s, e); }
  }

  lemma RunKeeps(c: Config, s: State, e: Event)
    requires Inv(c, s) && RunStep(c, s, e).Some?
    ensures Inv(c, RunStep(c, s, e).value)
  {
    hide RunStep;
    var s' := RunStep(c, s, e).value;
    MailFrame(s.mail, s'.mail);
    assert ControlInv(s') by { ControlRun(c, s, e); }
    assert LiveInv(s') by { LiveRun(c, s, e); }
    assert MirrorInv(s') by { MirrorRun(c, s, e); }
    assert WakeInv(s') by { WakeRun(c, s, e); }
    assert CellInv(s') by { CellRun(c, s, e); }
    assert CancelInv(s') by { CancelRun(c, s, e); }
    assert RetryInv(c, s') by { RetryRun(c, s, e); }
    assert LogInv(s') by { MoveRun(c, s, e); LogGrows(s, s'); }
    assert TalkInv(s'.mail) by { TalkRun(c, s, e); }
    if c.maxHeartbeatRounds < U32_MAX { RoundRun(c, s, e); }
  }

  lemma ParkKeeps(c: Config, s: State, e: Event)
    requires Inv(c, s) && ParkStep(c, s, e).Some?
    ensures Inv(c, ParkStep(c, s, e).value)
  {
    hide ParkStep;
    var s' := ParkStep(c, s, e).value;
    MailFrame(s.mail, s'.mail);
    assert ControlInv(s') by { ControlPark(c, s, e); }
    assert LiveInv(s') by { LivePark(c, s, e); }
    assert MirrorInv(s') by { MirrorPark(c, s, e); }
    assert WakeInv(s') by { WakeInvariant.WakePark(c, s, e); }
    assert CellInv(s') by { CellPark(c, s, e); }
    assert CancelInv(s') by { CancelPark(c, s, e); }
    assert RetryInv(c, s') by { RetryPark(c, s, e); }
    assert LogInv(s') by { MovePark(c, s, e); LogGrows(s, s'); }
    if c.maxHeartbeatRounds < U32_MAX { RoundPark(c, s, e); }
  }

  lemma SelectKeeps(c: Config, s: State, e: Event)
    requires Inv(c, s) && s.pc.AtSelect? && SelectStep(s, e).Some?
    ensures Inv(c, SelectStep(s, e).value)
  {
    hide SelectStep;
    var s' := SelectStep(s, e).value;
    MailFrame(s.mail, s'.mail);
    assert ControlInv(s') by { ControlSelect(s, e); }
    assert LiveInv(s') by { LiveSelect(s, e); }
    assert MirrorInv(s') by { MirrorSelect(s, e); }
    assert WakeInv(s') by { WakeSelect(s, e); }
    assert CellInv(s') by { CellSelect(s, e); }
    assert CancelInv(s') by { CancelSelect(s, e); }
    assert RetryInv(c, s') by { RetrySelect(c, s, e); }
    assert LogInv(s') by { MoveSelect(s, e); LogGrows(s, s'); }
    assert TalkInv(s'.mail) by { TalkSelect(s, e); }
    if c.maxHeartbeatRounds < U32_MAX { RoundSelect(c, s, e); }
  }

  lemma OuterKeeps(c: Config, s: State, e: Event)
    requires Inv(c, s) && OuterStep(s, e).Some?
    ensures Inv(c, OuterStep(s, e).value)
  {
    hide OuterStep;
    var s' := OuterStep(s, e).value;
    MailOuter(s, e);
    assert ControlInv(s') by { ControlOuter(s, e); }
    assert LiveInv(s') by { LiveOuter(s, e); }
    assert MirrorInv(s') by { MirrorOuter(s, e); }
    assert WakeInv(s') by { WakeOuter(s, e); }
    assert CellInv(s') by { CellOuter(s, e); }
    assert CancelInv(s') by { CancelOuter(s, e); }
    assert RetryInv(c, s') by { RetryOuter(c, s, e); }
    assert LogInv(s') by { MoveOuter(s, e); LogGrows(s, s'); }
    if c.maxHeartbeatRounds < U32_MAX { RoundOuter(c, s, e); }
  }

  lemma StepKeeps(c: Config, s: State, e: Event)
    requires Inv(c, s)
    ensures Inv(c, Next(c, s, e))
  {
    hide EnvStep, SelectStep, RunStep, ParkStep, OuterStep, Inv;
    if Step(c, s, e).Some? {
      if !IsLoopEvent(e) { EnvKeeps(c, s, e); }
      else if RunPc(s.pc) { RunKeeps(c, s, e); }
      else if ParkPc(s.pc) { ParkKeeps(c, s, e); }
      else if s.pc.AtSelect? { SelectKeeps(c, s, e); }
      else { OuterKeeps(c, s, e); }
    }
  }

  lemma InitialInv(c: Config, s: State)
    requires Initially(s)
    ensures Inv(c, s)
  {
    MailRestored(s.mail);
    hide MailInv;
  }

  lemma {:induction false} RunKeepsInv(c: Config, states: seq<State>, es: seq<Event>, n: nat)
    requires IsRun(c, states, es) && n < |states|
    ensures Inv(c, states[n])
  {
    hide Inv, Next, Initially;
    if n == 0 {
      InitialInv(c, states[0]);
    } else {
      RunKeepsInv(c, states, es, n - 1);
      var e := es[n - 1];
      StepKeeps(c, states[n - 1], e);
    }
  }

  lemma ReachableInv(c: Config, s: State)
    requires Reachable(c, s)
    ensures Inv(c, s)
  {
    hide Inv;
    var states, es :| IsRun(c, states, es) && s == states[|es|];
    RunKeepsInv(c, states, es, |es|);
  }

  lemma ReachableStart(c: Config, s: State)
    requires Initially(s)
    ensures Reachable(c, s)
  {
    assert IsRun(c, [s], []);
  }

  lemma ReachableNext(c: Config, s: State, e: Event)
    requires Reachable(c, s)
    ensures Reachable(c, Next(c, s, e))
  {
    hide Next, Initially;
    var states, es :| IsRun(c, states, es) && s == states[|es|];
    var states', es' := states + [Next(c, s, e)], es + [e];
    forall i | 0 <= i < |es'| ensures states'[i + 1] == Next(c, states'[i], es'[i]) {
      if i < |es| { assert es'[i] == es[i]; }
    }
    assert IsRun(c, states', es');
  }

  /** Running any schedule from a start state, as the object does, reaches its end. */
  lemma {:induction false} RunReaches(c: Config, s: State, es: seq<Event>)
    requires Initially(s)
    ensures Reachable(c, Run(c, s, es))
    decreases |es|
  {
    hide Next, Reachable;
    if es == [] {
      ReachableStart(c, s);
    } else {
      RunReaches(c, s, es[..|es| - 1]);
      ReachableNext(c, Run(c, s, es[..|es| - 1]), es[|es| - 1]);
    }
  }

  // ------------------------------------------------------------------ wakeups

  /**
   At the select and idle, with no producer between its write and its notify, exactly the rows
   written before some wake was stored or owed have a wake stored; a pending verdict always has.
   */
  lemma NoLostWakeup(c: Config, s: State)
    requires Reachable(c, s)
    ensures RestsIdle(s) && s.mail.inbox != [] ==> (s.signals.notify <==> s.mail.HasReached())
    ensures RestsIdle(s) && s.mail.approvals != [] ==> s.signals.notify
  {
    ReachableInv(c, s);
    RowsAreWritten(s.mail);
    hide Reachable;
  }

  /** At the select and idle, with no producer between its write and its notify. */
  predicate RestsIdle(s: State) { s.pc.AtSelect? && s.lifecycle.Idle? && s.signals.owed == 0 }

  lemma RowsAreWritten(m: Mail)
    requires MailInv(m)
    ensures forall i :: 0 <= i < |m.inbox| ==> m.inbox[i] < |m.fates|
  {
    forall i | 0 <= i < |m.inbox| ensures m.inbox[i] < |m.fates| {
      assert multiset(m.delivered + m.inbox)[m.inbox[i]] > 0;
    }
  }

  /** Mail a delivery announced, and everything older, is never left without a wake. */
  lemma AnnouncedMailIsCovered(c: Config, s: State, i: nat, j: nat)
    requires Reachable(c, s) && i <= j < |s.mail.inbox|
    ensures RestsIdle(s) && IsAnnounced(s.mail, s.mail.inbox[j]) ==> s.signals.notify && s.mail.inbox[i] < s.mail.reached
  {
    ReachableInv(c, s);
    assert s.mail.inbox[0] <= s.mail.inbox[j];
    hide Reachable;
  }

  predicate IsAnnounced(m: Mail, row: nat) { row < |m.fates| && m.fates[row].Announced? }

  /** Mail with no wake was never announced: restored, written off duty, deferred, or still at its delivery's reads. */
  lemma UncoveredMailWasQuiet(c: Config, s: State, i: nat)
    requires Reachable(c, s) && i < |s.mail.inbox|
    ensures
      var row := s.mail.inbox[i];
      RestsIdle(s) && !s.signals.notify ==>
        row < |s.mail.fates| && s.mail.reached <= row &&
        (var f := s.mail.fates[row]; f.InFlight? || f.Cleared? || f.Restored? || f.Buffered? || f.Deferred?)
  {
    ReachableInv(c, s);
    RowsAreWritten(s.mail);
    assert s.mail.inbox[0] <= s.mail.inbox[i];
  }

  /** A stamped cancel and a pending reset are never left without a wake, in any state. */
  lemma NoLostRequest(c: Config, s: State)
    requires Reachable(c, s)
    ensures s.pc.AtSelect? && s.signals.owed == 0 && (s.signals.parkCancel.Some? || s.signals.resetPending) ==>
              s.signals.notify
  { ReachableInv(c, s); }

  /**
   Every row ever written is delivered once or still undelivered, never both; the undelivered ones keep
   their order, whatever injected rows were taken out between them.
   */
  lemma MailConserved(c: Config, s: State, row: nat)
    requires Reachable(c, s)
    ensures
      multiset(s.mail.delivered)[row] + multiset(s.mail.inbox)[row] == if row < |s.mail.fates| then 1 else 0
    ensures forall i, j :: 0 <= i < j < |s.mail.inbox| ==> s.mail.inbox[i] < s.mail.inbox[j]
  {
    ReachableInv(c, s);
    MailCounted(s.mail, row);
  }

  /** Every prompt the channel took is heard once and in order, or still waits in it; so is every verdict told. */
  lemma TalkConserved(c: Config, s: State)
    requires Reachable(c, s)
    ensures s.mail.heard + s.mail.prompts == s.mail.sent
    ensures s.mail.told + s.mail.approvals == s.mail.judged
  { ReachableInv(c, s); }

  /** `n` pieces of the loop in a row. */
  function Gos(n: nat): seq<Event> { seq(n, _ => Go) }

  lemma OneMore(c: Config, s: State, es: seq<Event>, n: nat)
    requires 0 < n
    ensures Run(c, s, es + Gos(n)) == Next(c, Run(c, s, es + Gos(n - 1)), Go)
  {
    hide Next;
    var all := es + Gos(n);
    assert all[..|all| - 1] == es + Gos(n - 1);
  }

  lemma First(c: Config, s: State, e: Event)
    ensures Run(c, s, [e] + Gos(0)) == Next(c, s, e)
  {
    assert ([e] + Gos(0))[..0] == [];
  }

  /** What the notify arm has done by the time it reads the approvals. */
  function AfterPull(s: State): State {
    s.(signals := s.signals.(notify := false, resetPending := false, parkCancel := None),
       mail := s.mail.Pulled(),
       pc := NotifyApprovals(s.mail.inbox != []))
  }

  lemma NotifyArmPulls(c: Config, s: State)
    requires s.pc.AtSelect? && !s.lifecycle.Parked? && !CancelApplies(s) && s.signals.notify
    ensures Run(c, s, [TakeNotify] + Gos(3)) == AfterPull(s)
  {
    hide Run, Next, Step, NotifyStep;
    PullPieces(s);
    var s1 := s.(signals := s.signals.(notify := false), pc := NotifyReset);
    var s2 := NotifyStep(s1);
    NotifyTaken(c, s);
    NotifyGoes(c, s1);
    NotifyGoes(c, s2);
    NotifyGoes(c, NotifyStep(s2));
    First(c, s, TakeNotify);
    OneMore(c, s, [TakeNotify], 1);
    OneMore(c, s, [TakeNotify], 2);
    OneMore(c, s, [TakeNotify], 3);
  }

  lemma NotifyTaken(c: Config, s: State)
    requires s.pc.AtSelect? && s.signals.notify
    ensures Next(c, s, TakeNotify) == s.(signals := s.signals.(notify := false), pc := NotifyReset)
  {}

  /** The reset cell, the cancel cell, then the inbox, when there is no park to end. */
  lemma PullPieces(s: State)
    requires !s.lifecycle.Parked? && !CancelApplies(s)
    ensures
      var s1 := s.(signals := s.signals.(notify := false), pc := NotifyReset);
      var s2 := NotifyStep(s1);
      s2.pc.NotifyCancel? && NotifyStep(s2).pc.NotifyPull? && NotifyStep(NotifyStep(s2)) == AfterPull(s)
  {}

  lemma NotifyGoes(c: Config, s: State)
    requires s.pc.NotifyReset? || s.pc.NotifyCancel? || s.pc.NotifyPull? || s.pc.NotifyApprovals?
    ensures Next(c, s, Go) == NotifyStep(s)
  {}

  /**
   What a notify starts, exactly: unless it ends or meets a park, a round if and only if there is a row to deliver or
   a verdict to hear. A notify with nothing behind it leads back to the select and changes nothing but the cells.
   */
  lemma NotifyStartsExactly(c: Config, s: State)
    requires s.pc.AtSelect? && !s.lifecycle.Parked? && !CancelApplies(s) && s.signals.notify
    ensures
      var s' := Run(c, s, [TakeNotify] + Gos(4));
      var work := s.mail.inbox != [] || s.mail.approvals != [];
      && s'.pc == (if work then Entry(Notified) else AtSelect)
      && (!work ==> s' == s.(signals := s.signals.(notify := false, resetPending := false, parkCancel := None)))
  {
    hide Run, Next, EnvStep, SelectStep, RunStep, ParkStep;
    NotifyArmPulls(c, s);
    OneMore(c, s, [TakeNotify], 4);
    NotifyGoes(c, AfterPull(s));
    assert s.mail.inbox == [] ==> s.mail.delivered + s.mail.inbox == s.mail.delivered;
  }

  /**
   The stored wake serves the work with nobody's help: the loop's next six pieces start a round with
   every undelivered row delivered, those the wake was not meant for among them.
   */
  lemma IdleWorkIsServed(c: Config, s: State)
    requires Reachable(c, s)
    requires s.pc.AtSelect? && s.lifecycle.Idle? && s.signals.owed == 0
    requires s.mail.HasReached() || s.mail.approvals != []
    ensures
      var s' := Run(c, s, [TakeNotify] + Gos(5));
      && s'.lifecycle.Running? && s'.mail.inbox == [] && s'.mail.delivered == s.mail.delivered + s.mail.inbox
      && s'.mail.approvals == s.mail.approvals
  {
    hide Run, Next, Inv, Reachable, EnvStep, SelectStep, RunStep, ParkStep;
    NoLostWakeup(c, s);
    NotifyArmPulls(c, s);
    OneMore(c, s, [TakeNotify], 4);
    OneMore(c, s, [TakeNotify], 5);
    NotifyGoes(c, AfterPull(s));
    EntryGoes(c, NotifyStep(AfterPull(s)));
  }

  /**
   After a run: a first round that ended awake hands the whole inbox to one more round, and no other
   ending takes a single row out of it.
   */
  lemma OnlyAwakeDrains(c: Config, s: State)
    requires Reachable(c, s) && s.pc.Return?
    ensures
      var s1 := Next(c, s, Go);
      var s2 := Next(c, s1, Go);
      if s.pc.disposition.Awake? && !s.pc.arm.Drained? && s.mail.inbox != [] then
        s2.pc == Entry(Drained) && s2.mail.inbox == [] && s2.mail.delivered == s.mail.delivered + s.mail.inbox &&
        !s2.lifecycle.Running?
      else s1.mail == s.mail && (s1.pc.Drain? ==> s2.pc.AtSelect? && s2.mail == s.mail)
    ensures
      var s1 := Next(c, s, Go);
      && s1.fuses == s.fuses && s1.lifecycle == s.lifecycle && s1.counts == s.counts
      && (s1.pc.Drain? ==>
            var s2 := Next(c, s1, Go);
            s2.fuses == s.fuses && s2.lifecycle == s.lifecycle && s2.counts == s.counts)
  {
    ReachableInv(c, s);
    hide Reachable, Inv, EnvStep, SelectStep, RunStep, ParkStep, NotifyStep, Next;
    ReturnGoes(c, s);
    var s1 := ReturnStep(s);
    if s1.pc.Drain? { DrainGoes(c, s1); }
  }

  lemma ReturnGoes(c: Config, s: State)
    requires s.pc.Return?
    ensures Next(c, s, Go) == ReturnStep(s)
  {}

  lemma DrainGoes(c: Config, s: State)
    requires s.pc.Drain?
    ensures Next(c, s, Go) == DrainStep(s)
  {}

  lemma EntryGoes(c: Config, s: State)
    requires s.pc.Entry?
    ensures Next(c, s, Go) == EntryStep(s)
  {}

  // ------------------------------------------------------------------ timers

  /** At the select a parked state names its armed fuse, and every armed fuse will still wake the loop. */
  lemma NoLostTimer(c: Config, s: State, f: Fuse)
    requires Reachable(c, s)
    ensures s.pc.AtSelect? && s.lifecycle.Waiting? ==> s.fuses.wait.armed == Some(s.lifecycle.until)
    ensures s.pc.AtSelect? && s.lifecycle.Retrying? ==> s.fuses.retry.armed == Some(s.lifecycle.retryAt)
    ensures s.pc.AtSelect? && s.lifecycle.Parked? && s.lifecycle.reason.QuotaBlocked? ==> s.fuses.pacing.armed.Some?
    ensures
      var cell := s.fuses.Cell(f);
      s.pc.AtSelect? && !s.cancelled && cell.armed.Some? ==>
        Sleeper(f, cell.armed.value) in s.fuses.sleepers || (cell.permit && cell.armed.value <= s.now)
  { ReachableInv(c, s); }

  /** The schedule that lets an armed fuse run out: time passes, its sleeper fires if it has not, the loop takes it. */
  function RingSchedule(s: State, f: Fuse, d: nat): seq<Event> {
    [Tick(if s.now < d then d - s.now else 0)] +
    (if Sleeper(f, d) in s.fuses.sleepers then [Fire(Sleeper(f, d))] else [Tick(0)]) +
    [TakeFuse(f), Go, Go]
  }

  /** Every armed fuse really rings: from any reachable select, waiting out its deadline starts a round. */
  lemma ArmedFuseRings(c: Config, s: State, f: Fuse, d: nat)
    requires Reachable(c, s) && s.pc.AtSelect? && !s.cancelled
    requires s.fuses.Cell(f).armed == Some(d)
    ensures
      var s' := Run(c, s, RingSchedule(s, f, d));
      s'.lifecycle.Running? && s'.now == (if s.now < d then d else s.now) && s'.fuses.Cell(f).armed == None
  {
    NoLostTimer(c, s, f);
    hide Reachable, Inv, Run, Next, RingSchedule;
    var es := RingSchedule(s, f, d);
    RingIsFive(s, f, d);
    RingWaits(c, s, f, d);
    RingStarts(c, Next(c, Next(c, s, es[0]), es[1]), f, d);
    RunFive(c, s, es[0], es[1], TakeFuse(f), Go, Go);
  }

  lemma RingIsFive(s: State, f: Fuse, d: nat)
    ensures var es := RingSchedule(s, f, d); |es| == 5 && es == [es[0], es[1], TakeFuse(f), Go, Go]
  {}

  /** No timer is early: a fuse wake begins only on the check of its own deadline, armed at that moment and passed. */
  lemma NoEarlyTimer(c: Config, s: State, e: Event, f: Fuse)
    requires !s.pc.Entry?
    ensures Next(c, s, e).pc == Entry(Fired(f)) ==>
              s.pc == FuseCheck(f) && s.fuses.Due(f, s.now) && Next(c, s, e).fuses == s.fuses.Clear(f)
  {
    hide EnvStep, RunStep, ParkStep, OuterStep;
    if Step(c, s, e).Some? {
      if !IsLoopEvent(e) { EnvWakesNobody(s, e); }
      else if RunPc(s.pc) { RunWakesNobody(c, s, e); }
      else if ParkPc(s.pc) { ParkWakesNobody(c, s, e); }
      else if !s.pc.AtSelect? && OuterStep(s, e).value.pc == Entry(Fired(f)) { OuterWakes(s, e, f); }
    }
  }

  lemma EnvWakesNobody(s: State, e: Event)
    requires !IsLoopEvent(e) && EnvStep(s, e).Some?
    ensures EnvStep(s, e).value.pc == s.pc
  {}

  lemma RunWakesNobody(c: Config, s: State, e: Event)
    requires !s.pc.Entry? && RunStep(c, s, e).Some?
    ensures !RunStep(c, s, e).value.pc.Entry?
  {}

  lemma ParkWakesNobody(c: Config, s: State, e: Event)
    requires ParkStep(c, s, e).Some?
    ensures !ParkStep(c, s, e).value.pc.Entry?
  { hide ReportStep, ArmParkStep; }

  lemma OuterWakes(s: State, e: Event, f: Fuse)
    requires OuterStep(s, e).Some? && OuterStep(s, e).value.pc == Entry(Fired(f))
    ensures s.pc == FuseCheck(f) && s.fuses.Due(f, s.now) && OuterStep(s, e).value.fuses == s.fuses.Clear(f)
  {}

  lemma RingWaits(c: Config, s: State, f: Fuse, d: nat)
    requires s.pc.AtSelect? && s.fuses.Cell(f).armed == Some(d)
    requires Sleeper(f, d) in s.fuses.sleepers || (s.fuses.Cell(f).permit && d <= s.now)
    ensures
      var es := RingSchedule(s, f, d);
      var s2 := Next(c, Next(c, s, es[0]), es[1]);
      s2.pc.AtSelect? && s2.fuses.Cell(f) == FuseCell(Some(d), true) && d <= s2.now &&
      s2.now == (if s.now < d then d else s.now)
  {
    hide Next;
    var s1 := s.(now := if s.now < d then d else s.now);
    RingEvents(s, f, d);
    TimePasses(c, s, if s.now < d then d - s.now else 0);
    hide RingSchedule;
    if Sleeper(f, d) in s.fuses.sleepers { SleeperFires(c, s1, f, d); } else { TimePasses(c, s1, 0); }
  }

  lemma RingEvents(s: State, f: Fuse, d: nat)
    ensures
      var es := RingSchedule(s, f, d);
      |es| == 5 && es[0] == Tick(if s.now < d then d - s.now else 0) &&
      es[1] == if Sleeper(f, d) in s.fuses.sleepers then Fire(Sleeper(f, d)) else Tick(0)
  {}

  lemma TimePasses(c: Config, s: State, secs: nat)
    ensures Next(c, s, Tick(secs)) == s.(now := s.now + secs)
  {}

  lemma SleeperFires(c: Config, s: State, f: Fuse, d: nat)
    requires Sleeper(f, d) in s.fuses.sleepers && d <= s.now
    ensures
      var s' := Next(c, s, Fire(Sleeper(f, d)));
      s'.pc == s.pc && s'.now == s.now && s'.fuses.Cell(f) == FuseCell(s.fuses.Cell(f).armed, true)
  { hide ReportStep, ArmParkStep, NotifyStep; }

  lemma RingStarts(c: Config, s: State, f: Fuse, d: nat)
    requires s.pc.AtSelect? && s.fuses.Cell(f) == FuseCell(Some(d), true) && d <= s.now
    ensures
      var s' := Next(c, Next(c, Next(c, s, TakeFuse(f)), Go), Go);
      s'.lifecycle.Running? && s'.now == s.now && s'.fuses.Cell(f).armed == None
  {
    var s1 := s.(fuses := s.fuses.With(f, FuseCell(Some(d), false)), pc := FuseCheck(f));
    assert Next(c, s, TakeFuse(f)) == s1;
    assert Next(c, s1, Go) == FuseStep(s1);
    EntryGoes(c, FuseStep(s1));
  }

  lemma RunFive(c: Config, s: State, e0: Event, e1: Event, e2: Event, e3: Event, e4: Event)
    ensures Run(c, s, [e0, e1, e2, e3, e4]) == Next(c, Next(c, Next(c, Next(c, Next(c, s, e0), e1), e2), e3), e4)
  {
    hide Next;
    assert [e0, e1, e2, e3, e4][..4] == [e0, e1, e2, e3];
    assert [e0, e1, e2, e3][..3] == [e0, e1, e2];
    assert [e0, e1, e2][..2] == [e0, e1];
    assert [e0, e1][..1] == [e0];
    assert [e0][..0] == [];
    assert Run(c, s, [e0]) == Next(c, s, e0);
    assert Run(c, s, [e0, e1]) == Next(c, Next(c, s, e0), e1);
    assert Run(c, s, [e0, e1, e2]) == Next(c, Next(c, Next(c, s, e0), e1), e2);
    assert Run(c, s, [e0, e1, e2, e3]) == Next(c, Next(c, Next(c, Next(c, s, e0), e1), e2), e3);
  }

  // ------------------------------------------------------------------ lifecycle moves

  /**
   Every run's log is one legal walk from Idle in time order, and each wake in it was due:
   a wait or retry fuse that ends its own park does so no earlier than the deadline the
   park announced, a notify never wakes a parked agent, a drained round follows a wake that
   ended at rest, and an idle settle named an interrupt only when the round's own token was cancelled.
   */
  lemma EveryMoveIsGood(c: Config, s: State, i: nat)
    requires Reachable(c, s) && i < |s.log|
    ensures GoodMove(s.log[i]) && s.log[i].at <= s.now
    ensures s.log[i].from == if i == 0 then Idle else s.log[i - 1].to
    ensures i > 0 ==> s.log[i - 1].at <= s.log[i].at
    ensures i == |s.log| - 1 ==> s.log[i].to == s.lifecycle
  {
    ReachableInv(c, s);
    LogInvariant(c, s);
    hide Reachable, Inv, GoodMove;
  }

  lemma LogInvariant(c: Config, s: State)
    requires Inv(c, s)
    ensures LogInv(s)
  { hide ControlInv, LiveInv, MirrorInv, WakeInv, CellInv, CancelInv, MailInv, RetryInv, RoundInv, LogInv; }

  /** The loop never rests Running, and ends a task for a cancel only when its lifecycle token was cancelled. */
  lemma RestStates(c: Config, s: State)
    requires Reachable(c, s)
    ensures s.pc.AtSelect? ==> !s.lifecycle.Running?
    ensures s.pc.Drain? || s.pc == Entry(Drained) ==> s.lifecycle.Idle? || s.lifecycle.Waiting?
    ensures s.pc == Done(true) ==> s.cancelled
  { ReachableInv(c, s); }

  // ------------------------------------------------------------------ park cancels

  /**
   A park a cancel ended is the park the request named, unless the generation wrapped all
   the way round between the two: 2^64 parks later the request would name another one.
   */
  lemma CancelEndsTheNamedPark(c: Config, s: State, i: nat)
    requires Reachable(c, s) && i < |s.log| && s.log[i].cause.ParkCancel?
    ensures s.log[i].from.WakePark() && s.log[i].to.Idle?
    ensures s.log[i].cause.named == s.log[i].cause.ended || s.log[i].cause.named + U64 <= s.log[i].cause.ended
  {
    ReachableInv(c, s);
    SameGenerationApart(s.log[i].cause.named, s.log[i].cause.ended);
  }

  lemma SameGenerationApart(n: nat, m: nat)
    requires n <= m && Generation(n) == Generation(m)
    ensures n == m || n + U64 <= m
  {}

  /**
   The drain of the cell, exactly: a park in force ends if and only if as many parks were armed since
   the stamp was read as make the generation come round, none among them. The ended park is the named
   one if and only if fewer than 2^64 were. Whatever ends, the cell never survives.
   */
  lemma CancelIsExact(c: Config, s: State)
    requires Reachable(c, s) && s.pc.NotifyCancel? && s.signals.parkCancel.Some?
    ensures
      var s' := Next(c, s, Go);
      var named, ended := s.signals.parkCancel.value.park, s.counts.inForce;
      && s'.signals.parkCancel == None
      && (s.lifecycle.WakePark() ==> named <= ended)
      && (s'.log != s.log <==> s.lifecycle.WakePark() && (ended - named) % U64 == 0)
      && (s'.log != s.log ==>
            s'.lifecycle.Idle? && s'.log == s.log + [Move(s.lifecycle, Idle, ParkCancel(named, ended), s.now)] &&
            s'.fuses == s.fuses.ClearAll() && s'.counts.transientFails == 0 && s'.pc.Renotify?)
      && (s'.log == s.log ==> s'.lifecycle == s.lifecycle && s'.fuses == s.fuses && s'.counts == s.counts)
      && (s'.log != s.log ==> (named == ended <==> ended < named + U64))
      && (s.lifecycle.WakePark() <==> s.lifecycle.Waiting? || s.lifecycle.Retrying?)
  {
    hide *;
    ReachableInv(c, s);
    AppliesExactly(c, s);
    NotifyGoes(c, s);
    CellDrained(s);
    WakeParks(s.lifecycle);
  }

  lemma WakeParks(l: LifecycleState)
    ensures l.WakePark() <==> l.Waiting? || l.Retrying?
  {}

  lemma AppliesExactly(c: Config, s: State)
    requires Inv(c, s) && s.signals.parkCancel.Some?
    ensures
      var named, ended := s.signals.parkCancel.value.park, s.counts.inForce;
      && (s.lifecycle.WakePark() ==> named <= ended)
      && (CancelApplies(s) <==> s.lifecycle.WakePark() && (ended - named) % U64 == 0)
      && (CancelApplies(s) ==> (named == ended <==> ended < named + U64))
  {
    CancelCell(c, s);
    hide Inv;
    SameGenerationExactly(s.signals.parkCancel.value.park, s.counts.parks);
  }

  /** What the drain does, by whether the stamp applies. */
  lemma CellDrained(s: State)
    requires s.pc.NotifyCancel? && s.signals.parkCancel.Some?
    ensures
      var s' := NotifyStep(s);
      if CancelApplies(s) then
        s'.log == s.log + [Move(s.lifecycle, Idle, ParkCancel(s.signals.parkCancel.value.park, s.counts.inForce), s.now)] &&
        s'.lifecycle.Idle? && s'.fuses == s.fuses.ClearAll() && s'.counts.transientFails == 0 && s'.pc.Renotify?
      else s'.log == s.log && s'.lifecycle == s.lifecycle && s'.fuses == s.fuses && s'.counts == s.counts
    ensures NotifyStep(s).signals.parkCancel.None? && (CancelApplies(s) <==> NotifyStep(s).log != s.log)
    ensures CancelApplies(s) ==> s.lifecycle.WakePark()
  {}

  lemma CancelCell(c: Config, s: State)
    requires Inv(c, s) && s.signals.parkCancel.Some?
    ensures GoodStamp(s.counts.parks, s.signals.parkCancel.value) && s.signals.parkEpoch == Generation(s.counts.parks)
    ensures s.lifecycle.WakePark() ==> s.counts.inForce == s.counts.parks
  { hide ControlInv, LiveInv, MirrorInv, WakeInv, CellInv, MailInv, RetryInv, RoundInv, LogInv; }

  lemma SameGenerationExactly(n: nat, m: nat)
    requires n <= m
    ensures Generation(n) == Generation(m) <==> (m - n) % U64 == 0
    ensures (m - n) % U64 == 0 && m < n + U64 ==> n == m
  {
    var a, b := n / U64, m / U64;
    assert n == a * U64 + Generation(n) && m == b * U64 + Generation(m);
    if Generation(n) == Generation(m) {
      assert m - n == (b - a) * U64;
    }
    if (m - n) % U64 == 0 {
      var k := (m - n) / U64;
      assert m == (a + k) * U64 + Generation(n);
    }
  }

  // ------------------------------------------------------------------ bounded work

  /** One outer wake, both its rounds counted, runs a bounded number of loop rounds. */
  lemma WakeWorkIsBounded(c: Config, s: State)
    requires Reachable(c, s) && c.maxHeartbeatRounds < U32_MAX
    ensures s.counts.rounds <= 2 * RunBound(c)
  {
    ReachableInv(c, s);
    hide Reachable, Inv, RoundInv;
    RoundInvariant(c, s);
    RoundsWithin(c, s);
  }

  lemma RoundInvariant(c: Config, s: State)
    requires Inv(c, s) && c.maxHeartbeatRounds < U32_MAX
    ensures RoundInv(c, s)
  { hide ControlInv, LiveInv, MirrorInv, WakeInv, CellInv, CancelInv, MailInv, RetryInv, LogInv, RoundInv; }

  lemma RoundsWithin(c: Config, s: State)
    requires RoundInv(c, s)
    ensures s.counts.rounds <= 2 * RunBound(c)
  {
    hide RunBound, Within;
    match s.pc
    case Mint(arm, np) => Fits(c, arm, np, 0, s.counts.rounds);
    case RoundTop(arm, np, r) => Fits(c, arm, np, r, s.counts.rounds);
    case DrainApprovals(arm, np, r) => Fits(c, arm, np, r + 1, s.counts.rounds);
    case InRound(arm, np, r) => Fits(c, arm, np, r + 1, s.counts.rounds);
    case Report(arm, np, _) => Fits(c, arm, np, c.maxToolRounds, s.counts.rounds);
    case _ =>
  }

  /**
   With nothing resetting the transient count, at most `maxTransientRetries` retries are armed, and
   a hard park comes after exactly that many.
   */
  lemma RetriesAreBounded(c: Config, s: State)
    requires Reachable(c, s) && c.maxTransientRetries < U32_MAX
    ensures s.counts.retriesArmed <= c.maxTransientRetries
    ensures s.pc.AtSelect? && s.lifecycle.Parked? && s.lifecycle.reason.TransientRetryExhausted? ==>
              s.counts.retriesArmed == c.maxTransientRetries
    ensures s.pc.AtSelect? && s.lifecycle.Retrying? ==> s.lifecycle.attempt == s.counts.retriesArmed
  { ReachableInv(c, s); }

  /** The bound is lost at exactly one setting: a count that saturates at its limit never exceeds it. */
  lemma SaturatedCountNeverParks(c: Config, s: State)
    requires Reachable(c, s) && c.maxTransientRetries == U32_MAX
    ensures s.pc.AtSelect? && s.lifecycle.Parked? ==> !s.lifecycle.reason.TransientRetryExhausted?
    ensures s.pc.Report? && s.pc.outcome.ChainExhausted? ==> Next(c, s, Go).pc.ArmPark?
  { ReachableInv(c, s); }
}
