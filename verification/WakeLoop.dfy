/**
 The wake loop of one agent task as an interleaved step machine.

 The loop advances in the pieces between which another task can be scheduled;
 the environment (message producers, the interrupt route, timers, the operator)
 advances in pieces just as small. A park is armed in three separate pieces
 (deadline, generation, mirrored state), and a park-cancel request is handed over
 in three (read the generation, stamp the cell, notify).
 */
module WakeLoop {
  import opened Lifecycle
  import opened Wrappers

  /** The park generation is a 64-bit counter that wraps. */
  const U64: nat := 0x1_0000_0000_0000_0000
  /** The transient-failure count is a 32-bit counter that saturates. */
  const U32_MAX: nat := 0xFFFF_FFFF

  const DEFAULT_BREAK_TIMEOUT_SECS: nat := 600

  datatype Config = Config(maxTransientRetries: nat, maxHeartbeatRounds: nat, maxToolRounds: nat)

  // ------------------------------------------------------------------ state

  datatype Fuse = WaitFuse | RetryFuse | PacingFuse

  /** A detached task that stores a permit for its fuse once the deadline passes. */
  datatype Sleeper = Sleeper(fuse: Fuse, deadline: nat)

  /** A fuse's authority: the armed deadline, and the one permit its notify can store. */
  datatype FuseCell = FuseCell(armed: Option<nat>, permit: bool)

  /** A cancel request: the generation it carries and, for the proofs, the park it names. */
  datatype Stamp = Stamp(epoch: nat, park: nat)

  /** A round's own token, a child of the lifecycle token. */
  datatype RoundToken = RoundToken(interrupted: bool)

  /** What brought a round about. */
  datatype Arm = Initial | Prompt | Notified | Fired(fuse: Fuse) | Drained

  datatype Disposition = Awake | Held | Terminated

  datatype Outcome =
    | BreakIdle
    | BreakWait(timeoutSecs: nat)
    | BareAssistant
    | Cancelled(interrupted: bool) // whether the round's own token was cancelled
    | ChainExhausted
    | QuotaBlock
    | BudgetExceeded
    | MaxRounds
    | ParkIdle
    | Fatal

  /** Why the lifecycle moved: the phrase each settle call logs. */
  datatype Cause =
    | WakeEntry(arm: Arm)
    | ModalityGate
    | Break
    | HeartbeatLimit
    | Interrupt(interrupted: bool)
    | RetryArmed
    | RetriesExhausted
    | QuotaBlockedPark
    | BudgetProbe
    | MaxRoundsPark
    | FatalPark
    | ParkCancel(named: nat, ended: nat)

  datatype Move = Move(from: LifecycleState, to: LifecycleState, cause: Cause, at: nat)

  datatype ParkArm = ArmWait(timeoutSecs: nat) | ArmRetry

  /** Where the loop stands between two of its atomic pieces. */
  datatype Pc =
    | AtSelect
    // the notify arm
    | NotifyReset
    | NotifyCancel
    | Renotify
    | NotifyPull
    | NotifyApprovals(pulled: bool)
    // a fuse arm
    | FuseCheck(fuse: Fuse)
    // run_and_report
    | Entry(arm: Arm)
    | Gate(arm: Arm)
    | Mint(arm: Arm, noProgress: nat)
    | RoundTop(arm: Arm, noProgress: nat, round: nat)
    | DrainApprovals(arm: Arm, noProgress: nat, round: nat)
    | InRound(arm: Arm, noProgress: nat, round: nat)
    | Report(arm: Arm, noProgress: nat, outcome: Outcome)
    | ArmPark(arm: Arm, park: ParkArm, cause: Cause, disposition: Disposition)
    | BumpEpoch(arm: Arm, next: LifecycleState, cause: Cause, disposition: Disposition)
    | SettlePark(arm: Arm, next: LifecycleState, cause: Cause, disposition: Disposition)
    | ArmPacing(arm: Arm)
    | QuotaSettle(arm: Arm)
    | Return(arm: Arm, disposition: Disposition)
    // wake_and_drain
    | Drain
    | Done(lifecycleCancel: bool)

  /** The three fuse families and the sleepers any of them spawned. */
  datatype Fuses = Fuses(wait: FuseCell, retry: FuseCell, pacing: FuseCell, sleepers: multiset<Sleeper>) {
    function Cell(f: Fuse): FuseCell {
      match f
      case WaitFuse => wait
      case RetryFuse => retry
      case PacingFuse => pacing
    }

    function With(f: Fuse, c: FuseCell): Fuses {
      match f
      case WaitFuse => this.(wait := c)
      case RetryFuse => this.(retry := c)
      case PacingFuse => this.(pacing := c)
    }

    function Clear(f: Fuse): Fuses { With(f, FuseCell(None, Cell(f).permit)) }

    function ClearAll(): Fuses {
      Fuses(FuseCell(None, wait.permit), FuseCell(None, retry.permit), FuseCell(None, pacing.permit), sleepers)
    }

    /** Arm a fuse: store the deadline and spawn its sleeper. */
    function Arm(f: Fuse, deadline: nat): Fuses {
      With(f, FuseCell(Some(deadline), Cell(f).permit)).(sleepers := sleepers + multiset{Sleeper(f, deadline)})
    }

    /** Whether an armed deadline has passed: the authority of every fuse arm. */
    predicate Due(f: Fuse, now: nat) { Cell(f).armed.Some? && Cell(f).armed.value <= now }
  }

  /** The notify permit, the two cells drained behind it, and the published generation. */
  datatype Signals = Signals(
    notify: bool,
    owed: nat,                  // producers that have written but not yet notified
    resetPending: bool,
    parkEpoch: nat,
    parkCancel: Option<Stamp>,
    loading: multiset<Stamp>    // requests that have read the generation but not stamped it
  )

  /**
   How a message came to stand in the inbox. A delivery pushes it first and reads the duty flag
   and the published parked mark only then; what it read decides whether it wakes the agent.
   */
  datatype Fate =
    | InFlight                  // pushed; its delivery has read nothing yet
    | Cleared                   // the delivery read on duty, whatever the flag says later
    | Restored                  // in the inbox before the task was spawned
    | Buffered                  // the delivery read off duty and left it
    | Deferred                  // the delivery read parked: at most a kick prompt, no notify
    | Announced(injected: bool) // the delivery owes or made a notify; an injected one is also in the prompts

  /** Inbox rows are numbered as they are written; `fates` has one entry for every row ever written. */
  datatype Mail = Mail(
    inbox: seq<nat>,            // the undelivered rows
    fates: seq<Fate>,
    delivered: seq<nat>,        // rows in the order they were marked delivered
    reached: nat,               // the rows below this were written before some wake was stored or owed
    onDuty: bool,
    approvals: seq<nat>,        // verdicts not yet told to the agent
    told: seq<nat>,
    judged: seq<nat>,           // every verdict ever given
    prompts: seq<nat>,          // the prompt channel
    promptsOpen: bool,
    heard: seq<nat>,
    sent: seq<nat>              // every prompt the channel ever took
  ) {
    function Sent(p: nat): Mail { this.(prompts := prompts + [p], sent := sent + [p]) }

    /** The select takes one prompt; a round takes in all that are there. */
    function HeardOne(): Mail
      requires prompts != []
    { this.(heard := heard + [prompts[0]], prompts := prompts[1..]) }

    function HeardAll(): Mail { this.(heard := heard + prompts, prompts := []) }

    function Judged(a: nat): Mail { this.(approvals := approvals + [a], judged := judged + [a]) }

    function ToldAll(): Mail { this.(told := told + approvals, approvals := []) }

    /** Pull every undelivered message at once. */
    function Pulled(): Mail { this.(delivered := delivered + inbox, inbox := []) }

    /** A wake is stored or owed from here on: it reaches every row written so far. */
    function Reached(): Mail { this.(reached := |fates|) }

    /** Some undelivered row was written before a wake was stored or owed, or announced since. */
    predicate HasReached() { inbox != [] && inbox[0] < reached }

    predicate HasFate(row: nat, f: Fate) { row < |fates| && fates[row] == f }

    /** Mark one row delivered; a row already delivered is left alone. */
    function Marked(row: nat): Mail {
      if row in inbox then this.(inbox := Without(inbox, row), delivered := delivered + [row]) else this
    }
  }

  /** The rows and what is known of them are untouched. */
  predicate SameRows(m: Mail, m': Mail) {
    m'.inbox == m.inbox && m'.fates == m.fates && m'.delivered == m.delivered && m'.reached == m.reached
  }

  function Without(rows: seq<nat>, row: nat): seq<nat> {
    if rows == [] then [] else if rows[0] == row then rows[1..] else [rows[0]] + Without(rows[1..], row)
  }

  /** The transient count, and counts of what happened so far that the loop never reads. */
  datatype Counts = Counts(
    transientFails: nat,
    retriesArmed: nat,          // retries armed since the transient count was last reset
    parks: nat,                 // parks whose generation was published
    inForce: nat,               // the park the last wake-park state mirrors
    rounds: nat                 // round-loop iterations since the last outer wake
  ) {
    function Reset(): Counts { this.(transientFails := 0, retriesArmed := 0) }
  }

  datatype State = State(
    pc: Pc,
    lifecycle: LifecycleState,
    now: nat,
    cancelled: bool,
    budgetExceeded: bool,
    round: Option<RoundToken>,
    fuses: Fuses,
    signals: Signals,
    mail: Mail,
    counts: Counts,
    log: seq<Move>
  )

  /** The state a task starts in: idle, no fuse, no wake stored, and whatever rows were restored. */
  ghost predicate Initially(s: State) {
    && s.pc in {AtSelect, Entry(Initial)}
    && s.lifecycle == Idle
    && s.round == None
    && s.fuses == Fuses(FuseCell(None, false), FuseCell(None, false), FuseCell(None, false), multiset{})
    && s.signals == Signals(false, 0, false, 0, None, multiset{})
    && RestoredMail(s.mail)
    && s.counts == Counts(0, 0, 0, 0, 0)
    && s.log == []
  }

  /** Only restored rows, numbered from zero; notifications of verdicts are not persisted. */
  ghost predicate RestoredMail(m: Mail) {
    && |m.inbox| == |m.fates|
    && (forall i :: 0 <= i < |m.inbox| ==> m.inbox[i] == i && m.fates[i].Restored?)
    && m.delivered == [] && m.reached == 0
    && m.approvals == m.told == m.judged == [] && m.prompts == m.heard == m.sent == []
  }

  // ------------------------------------------------------------------ shared moves

  /** settle: apply the next lifecycle state and record the move. */
  function SettleTo(s: State, next: LifecycleState, cause: Cause): State {
    s.(lifecycle := next, log := s.log + [Move(s.lifecycle, next, cause, s.now)])
  }

  /** Whether a round token reads cancelled: its own cancel, or its parent's. */
  predicate RoundCancelled(s: State) {
    s.cancelled || (s.round.Some? && s.round.value.interrupted)
  }

  // ------------------------------------------------------------------ environment

  datatype Event =
    | Tick(secs: nat)
    | WriteMessage              // a delivery pushes its row
    | SeeOffDuty(row: nat)      // the delivery reads off duty and returns
    | SeeOnDuty(row: nat)       // it reads on duty and goes on
    | SeeParked(row: nat, kick: bool) // it reads the parked mark, which may lag the lifecycle
    | Announce(row: nat, inject: bool) // it reads no parked mark and goes on to its notify
    | MarkDelivered(row: nat)   // it marks an injected row delivered
    | SetDuty(on: bool)         // the duty route; on duty it owes a notify
    | WriteApproval(approval: nat)
    | WriteReset
    | Nudge                     // a producer with nothing to write
    | Notify                    // a producer that has written calls notify_one
    | LoadEpoch                 // request_park_cancel reads the generation
    | StampCancel(stamp: Stamp) // request_park_cancel stamps the cell
    | SendPrompt(prompt: nat)
    | ClosePrompts
    | Fire(sleeper: Sleeper)
    | Retire(sleeper: Sleeper)  // a sleeper ends on the lifecycle cancel
    | CancelLifecycle
    | CancelRound
    | SetBudget(exceeded: bool)
    // the arms of the select
    | TakePrompt
    | TakeCancel
    | TakeNotify
    | TakeFuse(fuse: Fuse)
    // the loop runs to its next piece
    | Go
    | GateBlocked
    | NextRound
    | Finish(outcome: Outcome)
    | Delay(secs: nat)

  predicate IsLoopEvent(e: Event) {
    e.TakePrompt? || e.TakeCancel? || e.TakeNotify? || e.TakeFuse? || e.Go? || e.GateBlocked? || e.NextRound? ||
    e.Finish? || e.Delay?
  }

  /** A stored permit, or a producer that still owes its notify. */
  predicate Covered(g: Signals) { g.notify || g.owed > 0 }

  /** A producer that has written owes its notify. */
  function Owing(s: State): State {
    s.(signals := s.signals.(owed := s.signals.owed + 1), mail := s.mail.Reached())
  }

  function DeliveryStep(s: State, e: Event): (r: Option<State>)
    ensures r.Some? ==> r.value == s.(signals := r.value.signals, mail := r.value.mail)
    ensures r.Some? ==> r.value.signals == s.signals.(owed := r.value.signals.owed) && r.value.signals.owed >= s.signals.owed
  {
    var m := s.mail;
    match e
    case WriteMessage =>
      var m' := m.(inbox := m.inbox + [|m.fates|], fates := m.fates + [InFlight]);
      Some(s.(mail := if Covered(s.signals) then m'.Reached() else m'))
    case SeeOffDuty(row) =>
      if m.HasFate(row, InFlight) && !m.onDuty then Some(s.(mail := m.(fates := m.fates[row := Buffered]))) else None
    case SeeOnDuty(row) =>
      if m.HasFate(row, InFlight) && m.onDuty then Some(s.(mail := m.(fates := m.fates[row := Cleared]))) else None
    case SeeParked(row, kick) =>
      if m.HasFate(row, Cleared) && (kick ==> m.promptsOpen) then
        var m' := m.(fates := m.fates[row := Deferred]);
        Some(s.(mail := if kick then m'.Sent(row) else m'))
      else None
    case Announce(row, inject) =>
      if m.HasFate(row, Cleared) && (inject ==> m.promptsOpen) then
        var m' := m.(fates := m.fates[row := Announced(inject)]);
        Some(Owing(s.(mail := if inject then m'.Sent(row) else m')))
      else None
    case MarkDelivered(row) =>
      if m.HasFate(row, Announced(true)) then Some(s.(mail := m.Marked(row))) else None
    case SetDuty(on) =>
      var s' := s.(mail := m.(onDuty := on));
      Some(if on then Owing(s') else s')
    case _ => None
  }

  /** The steps of a delivery, and of the duty route. */
  predicate IsDelivery(e: Event) {
    e.WriteMessage? || e.SeeOffDuty? || e.SeeOnDuty? || e.SeeParked? || e.Announce? || e.MarkDelivered? || e.SetDuty?
  }

  function EnvStep(s: State, e: Event): Option<State>
    requires !IsLoopEvent(e)
  {
    if IsDelivery(e) then DeliveryStep(s, e) else WorldStep(s, e)
  }

  predicate SameDeadlines(a: Fuses, b: Fuses) {
    b.wait.armed == a.wait.armed && b.retry.armed == a.retry.armed && b.pacing.armed == a.pacing.armed
  }

  /** What no step of the world moves: where the loop stands, its lifecycle, its counts and its armed deadlines. */
  predicate SameLoop(s: State, r: State) {
    && r.pc == s.pc && r.lifecycle == s.lifecycle && r.log == s.log && r.counts == s.counts
    && s.now <= r.now && SameDeadlines(s.fuses, r.fuses) && r.signals.parkEpoch == s.signals.parkEpoch
    && (r.round.Some? <==> s.round.Some?) && (s.cancelled ==> r.cancelled)
  }

  /** The rows of `m`, with some wake now stored or owed for them or not. */
  predicate RowsOrReached(m: Mail, m': Mail) { SameRows(m, m') || SameRows(m.Reached(), m') }

  /** The other producers and the interrupt route. */
  predicate IsProducer(e: Event) {
    e.WriteApproval? || e.WriteReset? || e.Nudge? || e.Notify? || e.LoadEpoch? || e.StampCancel?
  }

  function ProducerStep(s: State, e: Event): (r: Option<State>)
    ensures r.Some? ==> SameLoop(s, r.value) && RowsOrReached(s.mail, r.value.mail)
    ensures r.Some? ==> r.value == s.(mail := r.value.mail, signals := r.value.signals)
  {
    match e
    case WriteApproval(a) => Some(Owing(s.(mail := s.mail.Judged(a))))
    case WriteReset => Some(Owing(s.(signals := s.signals.(resetPending := true))))
    case Nudge => Some(Owing(s))
    case Notify =>
      if s.signals.owed == 0 then None
      else Some(s.(signals := s.signals.(owed := s.signals.owed - 1, notify := true)))
    case LoadEpoch =>
      var st := Stamp(s.signals.parkEpoch, s.counts.parks);
      Some(s.(signals := s.signals.(loading := s.signals.loading + multiset{st})))
    case StampCancel(st) =>
      if st !in s.signals.loading then None
      else
        Some(Owing(s.(signals := s.signals.(loading := s.signals.loading - multiset{st}, parkCancel := Some(st)))))
    case _ => None
  }

  /** A detached sleeper ends. */
  function SleeperStep(s: State, e: Event): (r: Option<State>)
    ensures r.Some? ==> SameLoop(s, r.value) && r.value == s.(fuses := r.value.fuses)
  {
    match e
    case Fire(sl) =>
      if sl !in s.fuses.sleepers || s.now < sl.deadline then None
      else
        var f := s.fuses.With(sl.fuse, FuseCell(s.fuses.Cell(sl.fuse).armed, true));
        Some(s.(fuses := f.(sleepers := s.fuses.sleepers - multiset{sl})))
    case Retire(sl) =>
      if sl !in s.fuses.sleepers || !s.cancelled then None
      else Some(s.(fuses := s.fuses.(sleepers := s.fuses.sleepers - multiset{sl})))
    case _ => None
  }

  /** The clock, the prompt channel and the operator. */
  function OperatorStep(s: State, e: Event): (r: Option<State>)
    ensures r.Some? ==> SameLoop(s, r.value) && SameRows(s.mail, r.value.mail)
    ensures r.Some? ==> r.value.fuses == s.fuses && r.value.signals == s.signals && r.value.mail.approvals == s.mail.approvals
  {
    match e
    case Tick(secs) => Some(s.(now := s.now + secs))
    case SendPrompt(p) =>
      if s.mail.promptsOpen then Some(s.(mail := s.mail.Sent(p))) else None
    case ClosePrompts => Some(s.(mail := s.mail.(promptsOpen := false)))
    case CancelLifecycle => Some(s.(cancelled := true))
    case CancelRound => if s.round == None then None else Some(s.(round := Some(RoundToken(true))))
    case SetBudget(b) => Some(s.(budgetExceeded := b))
    case _ => None
  }

  function WorldStep(s: State, e: Event): (r: Option<State>)
    requires !IsLoopEvent(e) && !IsDelivery(e)
    ensures r.Some? ==> SameLoop(s, r.value) && RowsOrReached(s.mail, r.value.mail)
  {
    if IsProducer(e) then ProducerStep(s, e)
    else if e.Fire? || e.Retire? then SleeperStep(s, e)
    else OperatorStep(s, e)
  }

  // ------------------------------------------------------------------ the select

  /** Nothing was published and no request moved. */
  predicate SameGeneration(s: State, r: State) {
    r.signals.parkEpoch == s.signals.parkEpoch && r.signals.loading == s.signals.loading &&
    r.counts.parks == s.counts.parks && r.counts.inForce == s.counts.inForce
  }

  function SelectStep(s: State, e: Event): (r: Option<State>)
    requires s.pc.AtSelect?
    ensures r.Some? ==> SameGeneration(s, r.value) && r.value.signals.parkCancel == s.signals.parkCancel
    ensures r.Some? ==> r.value.lifecycle == s.lifecycle && r.value.log == s.log
    ensures r.Some? ==> r.value.counts == s.counts.(rounds := r.value.counts.rounds)
    ensures r.Some? ==> SameRows(s.mail, r.value.mail) && r.value.mail.approvals == s.mail.approvals
  {
    match e
    case TakePrompt =>
      if s.mail.prompts != [] then
        Some(StartWake(s.(fuses := s.fuses.ClearAll(), mail := s.mail.HeardOne()), Prompt))
      else if !s.mail.promptsOpen then Some(s.(pc := Done(false)))
      else None
    case TakeCancel => if s.cancelled then Some(s.(pc := Done(true))) else None
    case TakeNotify =>
      if s.signals.notify then Some(s.(signals := s.signals.(notify := false), pc := NotifyReset)) else None
    case TakeFuse(f) =>
      if s.fuses.Cell(f).permit then
        Some(s.(fuses := s.fuses.With(f, FuseCell(s.fuses.Cell(f).armed, false)), pc := FuseCheck(f)))
      else None
    case _ => None
  }

  /** An outer wake begins: its round count starts over. */
  function StartWake(s: State, arm: Arm): State {
    s.(pc := Entry(arm), counts := s.counts.(rounds := 0))
  }

  /** Whether the drained stamp names the park in force. */
  predicate CancelApplies(s: State) {
    && s.signals.parkCancel.Some?
    && s.signals.parkCancel.value.epoch == s.signals.parkEpoch
    && s.lifecycle.WakePark()
  }

  /** End the parked episode: drop every fuse, restart the transient count, settle idle. */
  function EndCancelledPark(s: State, named: nat): State {
    SettleTo(s, Idle, ParkCancel(named, s.counts.inForce)).(fuses := s.fuses.ClearAll(), counts := s.counts.Reset())
  }

  function NotifyStep(s: State): (r: State)
    requires s.pc.NotifyReset? || s.pc.NotifyCancel? || s.pc.Renotify? || s.pc.NotifyPull? || s.pc.NotifyApprovals?
    ensures SameGeneration(s, r)
    ensures r.signals.parkCancel == if s.pc.NotifyCancel? then None else s.signals.parkCancel
    ensures r.mail == if s.pc.Renotify? then s.mail.Reached()
                      else if s.pc.NotifyPull? && !s.lifecycle.Parked? then s.mail.Pulled() else s.mail
  {
    match s.pc
    case NotifyReset => s.(signals := s.signals.(resetPending := false), pc := NotifyCancel)
    case NotifyCancel =>
      var drained := s.signals.(parkCancel := None);
      if CancelApplies(s) then
        EndCancelledPark(s, s.signals.parkCancel.value.park).(signals := drained, pc := Renotify)
      else s.(signals := drained, pc := NotifyPull)
    case Renotify => s.(signals := s.signals.(notify := true), mail := s.mail.Reached(), pc := AtSelect)
    case NotifyPull =>
      if s.lifecycle.Parked? then s.(pc := AtSelect)
      else s.(mail := s.mail.Pulled(), pc := NotifyApprovals(s.mail.inbox != []))
    case NotifyApprovals(pulled) =>
      if pulled || s.mail.approvals != [] then StartWake(s.(fuses := s.fuses.ClearAll()), Notified)
      else s.(pc := AtSelect)
  }

  function FuseStep(s: State): State
    requires s.pc.FuseCheck?
  {
    var f := s.pc.fuse;
    if s.fuses.Due(f, s.now) then StartWake(s.(fuses := s.fuses.Clear(f)), Fired(f)) else s.(pc := AtSelect)
  }

  // ------------------------------------------------------------------ run_and_report

  function EntryStep(s: State): State
    requires s.pc.Entry?
  {
    SettleTo(s, Running, WakeEntry(s.pc.arm))
      .(signals := s.signals.(resetPending := false), pc := Gate(s.pc.arm))
  }

  function GateStep(s: State, blocked: bool): State
    requires s.pc.Gate?
  {
    if blocked then
      SettleTo(s, Parked(FatalError, s.now), ModalityGate).(pc := Return(s.pc.arm, Held))
    else s.(pc := Mint(s.pc.arm, 0))
  }

  /** The top of one loop round: take in the prompts, then read the shared budget. */
  function RoundTopStep(c: Config, s: State): State
    requires s.pc.RoundTop?
  {
    var RoundTop(arm, np, r) := s.pc;
    if r >= c.maxToolRounds then s.(round := None, pc := Report(arm, np, MaxRounds))
    else
      var s1 := s.(mail := s.mail.HeardAll(), counts := s.counts.(rounds := s.counts.rounds + 1));
      if s.budgetExceeded then s1.(round := None, pc := Report(arm, np, BudgetExceeded))
      else s1.(pc := DrainApprovals(arm, np, r))
  }

  /** Which outcomes the middle of a round can end in. */
  predicate CanFinish(s: State, o: Outcome) {
    && !o.MaxRounds?
    && (o.Cancelled? ==>
      RoundCancelled(s) && o.interrupted == (s.round.Some? && s.round.value.interrupted))
  }

  /** The no-progress count is a 32-bit counter that wraps in a release build. */
  function Wrapped(n: nat): nat { (n + 1) % (U32_MAX + 1) }

  function Saturated(n: nat): nat { if n < U32_MAX then n + 1 else U32_MAX }

  /** What a verdict leaves alone: every fuse, signal and message, and the published generation. */
  predicate SameShared(s: State, r: State) {
    r.fuses == s.fuses && r.signals == s.signals && r.mail == s.mail && r.now == s.now &&
    r.cancelled == s.cancelled && r.counts.parks == s.counts.parks && r.counts.inForce == s.counts.inForce
  }

  /** How an outcome moves the transient count: a chain failure charges it, a quota block leaves it, the rest reset it. */
  function CountsAfter(k: Counts, o: Outcome): Counts {
    match o
    case ChainExhausted => k.(transientFails := Saturated(k.transientFails))
    case QuotaBlock => k
    case _ => k.Reset()
  }

  /** What run_and_report does about an outcome: settle a state and return, or go on. */
  datatype Verdict = Settle(next: LifecycleState, cause: Cause, disposition: Disposition) | GoOn(pc: Pc)

  function VerdictOf(c: Config, s: State, fails: nat): Verdict
    requires s.pc.Report?
  {
    var Report(arm, np, o) := s.pc;
    match o
    case BreakIdle => Settle(Idle, Break, Awake)
    case BreakWait(t) => GoOn(ArmPark(arm, ArmWait(t), Break, Awake))
    case BareAssistant =>
      if Wrapped(np) > c.maxHeartbeatRounds then Settle(Idle, HeartbeatLimit, Awake) else GoOn(Mint(arm, Wrapped(np)))
    case Cancelled(interrupted) =>
      if s.cancelled then GoOn(Return(arm, Terminated)) else Settle(Idle, Interrupt(interrupted), Awake)
    case ChainExhausted =>
      if fails <= c.maxTransientRetries then GoOn(ArmPark(arm, ArmRetry, RetryArmed, Held))
      else Settle(Parked(TransientRetryExhausted, s.now), RetriesExhausted, Held)
    case QuotaBlock => GoOn(ArmPacing(arm))
    case BudgetExceeded => GoOn(ArmPark(arm, ArmWait(DEFAULT_BREAK_TIMEOUT_SECS), BudgetProbe, Held))
    case MaxRounds => Settle(Parked(MaxRoundsExceeded, s.now), MaxRoundsPark, Held)
    case ParkIdle => Settle(Idle, Break, Awake)
    case Fatal => Settle(Parked(FatalError, s.now), FatalPark, Held)
  }

  function ReportStep(c: Config, s: State): (r: State)
    requires s.pc.Report?
    ensures SameShared(s, r)
    ensures r.pc.Return? || r.pc.ArmPark? || r.pc.ArmPacing? || r.pc.Mint?
    ensures r.lifecycle == s.lifecycle || r.lifecycle.Idle? || (r.lifecycle.Parked? && !r.lifecycle.reason.QuotaBlocked?)
  {
    var s1 := s.(counts := CountsAfter(s.counts, s.pc.outcome));
    match VerdictOf(c, s, s1.counts.transientFails)
    case Settle(next, cause, d) => SettleTo(s1, next, cause).(pc := Return(s.pc.arm, d))
    case GoOn(pc) => s1.(pc := pc)
  }

  /** arm_park's first half: the deadline and its sleeper. `delay` is the drawn backoff of a retry. */
  function ArmParkStep(c: Config, s: State, delay: nat): (r: State)
    requires s.pc.ArmPark?
    ensures SameGeneration(s, r) && r.signals == s.signals && r.lifecycle == s.lifecycle && r.log == s.log
    ensures r.pc.BumpEpoch? && r.mail == s.mail
  {
    var ArmPark(arm, park, cause, d) := s.pc;
    match park
    case ArmWait(t) =>
      s.(fuses := s.fuses.Arm(WaitFuse, s.now + t), pc := BumpEpoch(arm, Waiting(s.now + t), cause, d))
    case ArmRetry =>
      var next := Retrying(s.counts.transientFails, c.maxTransientRetries, s.now + delay);
      s.(fuses := s.fuses.Arm(RetryFuse, s.now + delay),
         counts := s.counts.(retriesArmed := s.counts.retriesArmed + 1),
         pc := BumpEpoch(arm, next, cause, d))
  }

  /** arm_park's second half: publish the generation. */
  function BumpEpochStep(s: State): State
    requires s.pc.BumpEpoch?
  {
    s.(signals := s.signals.(parkEpoch := (s.signals.parkEpoch + 1) % U64),
       counts := s.counts.(parks := s.counts.parks + 1),
       pc := SettlePark(s.pc.arm, s.pc.next, s.pc.cause, s.pc.disposition))
  }

  /** settle_park: mirror the state the armed park names. */
  function SettleParkStep(s: State): State
    requires s.pc.SettlePark?
  {
    SettleTo(s, s.pc.next, s.pc.cause)
      .(counts := s.counts.(inForce := s.counts.parks), pc := Return(s.pc.arm, s.pc.disposition))
  }

  /** wake_and_drain: only a first round that ended awake delivers what the inbox buffered. */
  function ReturnStep(s: State): State
    requires s.pc.Return?
  {
    var Return(arm, d) := s.pc;
    if d.Terminated? then s.(pc := Done(true))
    else if d.Awake? && !arm.Drained? then s.(pc := Drain)
    else s.(pc := AtSelect)
  }

  function DrainStep(s: State): State
    requires s.pc.Drain?
  {
    if s.mail.inbox == [] then s.(pc := AtSelect)
    else s.(mail := s.mail.Pulled(), pc := Entry(Drained))
  }

  /** The pieces of run_and_report up to a round's outcome. */
  function RunStep(c: Config, s: State, e: Event): (r: Option<State>)
    ensures r.Some? ==> SameGeneration(s, r.value) && r.value.signals.parkCancel == s.signals.parkCancel
    ensures r.Some? ==> r.value.fuses == s.fuses && SameRows(s.mail, r.value.mail)
  {
    match s.pc
    case Entry(_) => if e.Go? then Some(EntryStep(s)) else None
    case Gate(_) => if e.Go? || e.GateBlocked? then Some(GateStep(s, e.GateBlocked?)) else None
    case Mint(arm, np) =>
      if e.Go? then Some(s.(round := Some(RoundToken(false)), pc := RoundTop(arm, np, 0))) else None
    case RoundTop(_, _, _) => if e.Go? then Some(RoundTopStep(c, s)) else None
    case DrainApprovals(arm, np, r) =>
      if e.Go? then Some(s.(mail := s.mail.ToldAll(), pc := InRound(arm, np, r))) else None
    case InRound(arm, np, r) =>
      if e.NextRound? then Some(s.(pc := RoundTop(arm, np, r + 1)))
      else if e.Finish? && CanFinish(s, e.outcome) then Some(s.(round := None, pc := Report(arm, np, e.outcome)))
      else None
    case _ => None
  }

  /** The pieces that act on a round's outcome: the verdict, and the arming and publishing of a park. */
  function ParkStep(c: Config, s: State, e: Event): (r: Option<State>)
    ensures r.Some? ==> r.value.mail == s.mail
  {
    match s.pc
    case Report(_, _, _) => if e.Go? then Some(ReportStep(c, s)) else None
    case ArmPark(_, _, _, _) => if e.Delay? then Some(ArmParkStep(c, s, e.secs)) else None
    case BumpEpoch(_, _, _, _) => if e.Go? then Some(BumpEpochStep(s)) else None
    case SettlePark(_, _, _, _) => if e.Go? then Some(SettleParkStep(s)) else None
    case ArmPacing(arm) =>
      if e.Delay? then Some(s.(fuses := s.fuses.Arm(PacingFuse, s.now + e.secs), pc := QuotaSettle(arm))) else None
    case QuotaSettle(arm) =>
      if e.Go? then Some(SettleTo(s, Parked(QuotaBlocked, s.now), QuotaBlockedPark).(pc := Return(arm, Held)))
      else None
    case _ => None
  }

  /** The pieces of the outer loop between its select and a run. */
  function OuterStep(s: State, e: Event): (r: Option<State>)
    ensures r.Some? ==> r.value.mail in {s.mail, s.mail.Reached(), s.mail.Pulled()}
  {
    match s.pc
    case NotifyReset | NotifyCancel | Renotify | NotifyPull | NotifyApprovals(_) =>
      if e.Go? then Some(NotifyStep(s)) else None
    case FuseCheck(_) => if e.Go? then Some(FuseStep(s)) else None
    case Return(_, _) => if e.Go? then Some(ReturnStep(s)) else None
    case Drain => if e.Go? then Some(DrainStep(s)) else None
    case _ => None
  }

  /** The pieces of a run up to a round's outcome. */
  predicate RunPc(pc: Pc) {
    pc.Entry? || pc.Gate? || pc.Mint? || pc.RoundTop? || pc.DrainApprovals? || pc.InRound?
  }

  /** The pieces of a run from a round's outcome to the settled state. */
  predicate ParkPc(pc: Pc) {
    pc.Report? || pc.ArmPark? || pc.BumpEpoch? || pc.SettlePark? || pc.ArmPacing? || pc.QuotaSettle?
  }

  /** One step of the whole system, when the event is enabled. */
  function Step(c: Config, s: State, e: Event): Option<State> {
    if !IsLoopEvent(e) then EnvStep(s, e)
    else if RunPc(s.pc) then RunStep(c, s, e)
    else if ParkPc(s.pc) then ParkStep(c, s, e)
    else if s.pc.AtSelect? then SelectStep(s, e)
    else OuterStep(s, e)
  }

  /** Run a schedule; an event that is not enabled leaves the state as it is. */
  function Next(c: Config, s: State, e: Event): State {
    match Step(c, s, e)
    case Some(s') => s'
    case None => s
  }

  function Run(c: Config, s: State, es: seq<Event>): State
    decreases |es|
  {
    if es == [] then s else Next(c, Run(c, s, es[..|es| - 1]), es[|es| - 1])
  }
}
