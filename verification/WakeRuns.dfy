/**
 Runs that show where the promises of the wake loop end: mail nobody wakes for, a cancel that
 comes round to another park, and the two counters whose limits the largest setting loses.
 Each lemma follows one schedule, piece by piece.
 */
module WakeRuns {
  import opened Lifecycle
  import opened Wrappers
  import opened WakeLoop
  import opened WakeInvariant
  import opened WakeSafety

  /** A task spawned with no prompt over `restored` undelivered rows. */
  function Fresh(restored: nat): (s: State)
    ensures Initially(s) && s.pc.AtSelect?
    ensures s.mail.inbox == seq(restored, i => i) && s.mail.prompts == [] && s.mail.promptsOpen && s.mail.onDuty
    ensures s.counts == Counts(0, 0, 0, 0, 0) && !s.budgetExceeded && !s.cancelled
  {
    var none := FuseCell(None, false);
    State(
      AtSelect, Idle, 0, false, false, None, Fuses(none, none, none, multiset{}),
      Signals(false, 0, false, 0, None, multiset{}),
      Mail(seq(restored, i => i), seq(restored, _ => Restored), [], 0, true, [], [], [], [], true, [], []), Counts(0, 0, 0, 0, 0), [])
  }

  // ------------------------------------------------------------------ mail written for nobody

  /** Undelivered mail at the select with nothing stored or owed that would wake the loop for it. */
  predicate Uncovered(s: State) {
    s.pc.AtSelect? && s.mail.inbox != [] && !Covered(s.signals)
  }

  /** Restored mail has no wake: a task spawned over an inbox sleeps on it, idle. */
  lemma RestoredMailWaits(c: Config)
    ensures exists s :: Reachable(c, s) && Uncovered(s) && s.lifecycle.Idle? && s.mail.inbox == [0] && s.mail.fates == [Restored]
  {
    var s := Fresh(1);
    ReachableStart(c, s);
    assert Uncovered(s) && s.mail.inbox == [0] && s.mail.fates == [Restored];
  }

  lemma DeliveryGoes(c: Config, s: State, e: Event)
    requires IsDelivery(e)
    ensures Next(c, s, e) == DeliveryStep(s, e).UnwrapOr(s)
  {}

  /** Mail written off duty has no wake: an idle agent sleeps on it. */
  lemma OffDutyMailWaits(c: Config)
    ensures exists s :: Reachable(c, s) && Uncovered(s) && s.lifecycle.Idle? && s.mail.inbox == [0] && s.mail.fates == [Buffered]
  {
    var s := Fresh(0);
    ReachableStart(c, s);
    hide Reachable, Next;
    var s1 := DeliveryStep(s, SetDuty(false)).value;
    var s2 := DeliveryStep(s1, WriteMessage).value;
    var s3 := DeliveryStep(s2, SeeOffDuty(0)).value;
    DeliveryGoes(c, s, SetDuty(false));
    DeliveryGoes(c, s1, WriteMessage);
    DeliveryGoes(c, s2, SeeOffDuty(0));
    ReachableNext(c, s, SetDuty(false));
    ReachableNext(c, s1, WriteMessage);
    ReachableNext(c, s2, SeeOffDuty(0));
    assert Uncovered(s3) && s3.mail.inbox == [0] && s3.mail.fates == [Buffered];
  }

  // ------------------------------------------------------------------ one prompt, one round

  /** The select after a prompt was sent to it, its budget not spent. */
  predicate Promptable(s: State) { s.pc.AtSelect? && s.mail.promptsOpen && s.mail.prompts == [] && !s.budgetExceeded }

  /** The inbox, the prompt channel and the duty flag are as before; what was said meanwhile may differ. */
  predicate SameBoxes(m: Mail, m': Mail) {
    SameRows(m, m') && m'.prompts == m.prompts && m'.promptsOpen == m.promptsOpen && m'.onDuty == m.onDuty
  }

  /** A prompt clears every fuse and enters a wake. */
  lemma PromptTaken(c: Config, s: State) returns (t: State)
    requires Reachable(c, s) && Promptable(s)
    ensures Reachable(c, t) && SameBoxes(s.mail, t.mail)
    ensures t == s.(pc := Entry(Prompt), fuses := s.fuses.ClearAll(), counts := s.counts.(rounds := 0), mail := t.mail)
  {
    hide Reachable, Next;
    ReachableNext(c, s, SendPrompt(0));
    var s1 := s.(mail := s.mail.Sent(0));
    PromptGoes(c, s);
    ReachableNext(c, s1, TakePrompt);
    t := Next(c, s1, TakePrompt);
  }

  lemma PromptGoes(c: Config, s: State)
    requires Promptable(s)
    ensures
      var s1 := s.(mail := s.mail.Sent(0));
      && Next(c, s, SendPrompt(0)) == s1
      && Next(c, s1, TakePrompt) == StartWake(s1.(fuses := s.fuses.ClearAll(), mail := s1.mail.HeardOne()), Prompt)
      && s1.mail.HeardOne().prompts == []
  {
    SelectTakesPrompt(c, s.(mail := s.mail.Sent(0)));
    assert s.mail.prompts + [0] == [0];
    hide SelectStep, RunStep, ParkStep, OuterStep, DeliveryStep;
  }

  lemma SelectTakesPrompt(c: Config, s: State)
    requires s.pc.AtSelect? && s.mail.prompts != []
    ensures Next(c, s, TakePrompt) == StartWake(s.(fuses := s.fuses.ClearAll(), mail := s.mail.HeardOne()), Prompt)
  { hide EnvStep, RunStep, ParkStep, OuterStep; }

  lemma GateGoes(c: Config, s: State, blocked: bool)
    requires s.pc.Gate?
    ensures Next(c, s, if blocked then GateBlocked else Go) == GateStep(s, blocked)
  {}

  /** The wake settles Running and passes the gate. */
  lemma WakeEntered(c: Config, s: State) returns (t: State)
    requires Reachable(c, s) && s.pc.Entry?
    ensures Reachable(c, t)
    ensures t == s.(pc := Mint(s.pc.arm, 0), lifecycle := Running, log := t.log,
                    signals := s.signals.(resetPending := false))
  {
    hide Reachable, Next;
    ReachableNext(c, s, Go);
    EntryGoes(c, s);
    var s1 := EntryStep(s);
    ReachableNext(c, s1, Go);
    GateGoes(c, s1, false);
    t := GateStep(s1, false);
  }

  lemma RoundGoes(c: Config, s: State)
    requires s.pc.Mint? && 0 < c.maxToolRounds && !s.budgetExceeded
    ensures
      var Mint(arm, np) := s.pc;
      && Next(c, s, Go) == s.(pc := RoundTop(arm, np, 0), round := Some(RoundToken(false)))
      && (var s1 := s.(pc := RoundTop(arm, np, 0), round := Some(RoundToken(false)));
          Next(c, s1, Go) ==
          s1.(pc := DrainApprovals(arm, np, 0), mail := s.mail.HeardAll(),
              counts := s.counts.(rounds := s.counts.rounds + 1)))
  {}

  lemma FinishGoes(c: Config, s: State, o: Outcome)
    requires s.pc.DrainApprovals? && !o.MaxRounds? && !o.Cancelled?
    ensures
      var DrainApprovals(arm, np, r) := s.pc;
      && Next(c, s, Go) == s.(pc := InRound(arm, np, r), mail := s.mail.ToldAll())
      && (var s1 := s.(pc := InRound(arm, np, r), mail := s.mail.ToldAll());
          Next(c, s1, Finish(o)) == s1.(pc := Report(arm, np, o), round := None))
  {}

  /** One whole round of one tool round, ending as the world chooses. */
  lemma RoundRun(c: Config, s: State, o: Outcome) returns (t: State)
    requires Reachable(c, s) && s.pc.Mint? && 0 < c.maxToolRounds && !s.budgetExceeded && !o.MaxRounds? && !o.Cancelled?
    ensures Reachable(c, t) && SameRows(s.mail, t.mail) && t.mail.prompts == []
    ensures t.mail.promptsOpen == s.mail.promptsOpen && t.mail.onDuty == s.mail.onDuty
    ensures t == s.(pc := Report(s.pc.arm, s.pc.noProgress, o), round := None, mail := t.mail,
                    counts := s.counts.(rounds := s.counts.rounds + 1))
  {
    hide Reachable, Next;
    RoundGoes(c, s);
    ReachableNext(c, s, Go);
    var s1 := Next(c, s, Go);
    ReachableNext(c, s1, Go);
    var s2 := Next(c, s1, Go);
    FinishGoes(c, s2, o);
    ReachableNext(c, s2, Go);
    var s3 := Next(c, s2, Go);
    ReachableNext(c, s3, Finish(o));
    t := Next(c, s3, Finish(o));
  }

  /** From the select to the outcome of a prompt's round. */
  lemma PromptRound(c: Config, s: State, o: Outcome) returns (t: State)
    requires Reachable(c, s) && Promptable(s) && 0 < c.maxToolRounds && !o.MaxRounds? && !o.Cancelled?
    ensures Reachable(c, t) && SameBoxes(s.mail, t.mail)
    ensures t == s.(pc := Report(Prompt, 0, o), round := None, lifecycle := Running, log := t.log,
                    fuses := s.fuses.ClearAll(), signals := s.signals.(resetPending := false),
                    mail := t.mail, counts := s.counts.(rounds := 1))
  {
    hide Reachable;
    var s1 := PromptTaken(c, s);
    var s2 := WakeEntered(c, s1);
    t := RoundRun(c, s2, o);
  }

  lemma ParkGoes(c: Config, s: State, delay: nat)
    ensures s.pc.Report? ==> Next(c, s, Go) == ReportStep(c, s)
    ensures s.pc.ArmPark? ==> Next(c, s, Delay(delay)) == ArmParkStep(c, s, delay)
    ensures s.pc.BumpEpoch? ==> Next(c, s, Go) == BumpEpochStep(s)
    ensures s.pc.SettlePark? ==> Next(c, s, Go) == SettleParkStep(s)
  { hide ReportStep, ArmParkStep; }

  /** Armed, published, mirrored. */
  lemma ParkRun(c: Config, s: State) returns (t: State)
    requires Reachable(c, s) && s.pc.ArmPark?
    ensures Reachable(c, t) && t.pc == Return(s.pc.arm, s.pc.disposition)
    ensures t.lifecycle.Waiting? <==> s.pc.park.ArmWait?
    ensures t.lifecycle.Retrying? <==> s.pc.park.ArmRetry?
    ensures t.mail == s.mail && t.budgetExceeded == s.budgetExceeded && t.cancelled == s.cancelled
    ensures t.signals == s.signals.(parkEpoch := (s.signals.parkEpoch + 1) % U64)
    ensures t.counts.parks == s.counts.parks + 1 == t.counts.inForce && t.counts.rounds == s.counts.rounds
    ensures t.counts.transientFails == s.counts.transientFails
    ensures t.counts.retriesArmed == s.counts.retriesArmed + if s.pc.park.ArmRetry? then 1 else 0
  {
    hide Reachable, Next;
    ParkGoes(c, s, 0);
    ReachableNext(c, s, Delay(0));
    var s1 := ArmParkStep(c, s, 0);
    ParkGoes(c, s1, 0);
    ReachableNext(c, s1, Go);
    var s2 := BumpEpochStep(s1);
    ParkGoes(c, s2, 0);
    ReachableNext(c, s2, Go);
    t := SettleParkStep(s2);
  }

  /** A prompt's round that ends in an armed park, back at the select unless it ended awake. */
  lemma PromptPark(c: Config, s: State, o: Outcome) returns (t: State)
    requires Reachable(c, s) && Promptable(s) && 0 < c.maxToolRounds
    requires o.BreakWait? || o.BudgetExceeded? || (o.ChainExhausted? && Saturated(s.counts.transientFails) <= c.maxTransientRetries)
    ensures Reachable(c, t) && t.pc == Return(Prompt, if o.BreakWait? then Awake else Held)
    ensures t.lifecycle.Waiting? <==> !o.ChainExhausted?
    ensures t.lifecycle.Retrying? <==> o.ChainExhausted?
    ensures SameBoxes(s.mail, t.mail) && !t.budgetExceeded
    ensures t.signals == s.signals.(resetPending := false, parkEpoch := (s.signals.parkEpoch + 1) % U64)
    ensures t.counts.parks == s.counts.parks + 1 == t.counts.inForce
    ensures o.ChainExhausted? ==>
              t.counts.transientFails == Saturated(s.counts.transientFails) &&
              t.counts.retriesArmed == s.counts.retriesArmed + 1
  {
    hide Reachable, Next;
    var s1 := PromptRound(c, s, o);
    ParkGoes(c, s1, 0);
    ReachableNext(c, s1, Go);
    var s2 := ReportStep(c, s1);
    t := ParkRun(c, s2);
  }

  // ------------------------------------------------------------------ mail whose wake was eaten

  /** Mail that was announced, with no wake left for it. */
  predicate Forgotten(s: State) { Uncovered(s) && s.mail.HasReached() }

  /** A fresh agent whose first prompt meets a profile that cannot serve it parks. */
  lemma ParkedByTheGate(c: Config) returns (t: State)
    ensures Reachable(c, t) && Promptable(t) && t.lifecycle.Parked? && SameBoxes(Fresh(0).mail, t.mail)
    ensures t.signals == Fresh(0).signals && t.counts.transientFails == 0
  {
    var s := Fresh(0);
    ReachableStart(c, s);
    hide Reachable, Next;
    var s1 := PromptTaken(c, s);
    ReachableNext(c, s1, Go);
    EntryGoes(c, s1);
    var s2 := EntryStep(s1);
    ReachableNext(c, s2, GateBlocked);
    GateGoes(c, s2, true);
    var s3 := GateStep(s2, true);
    ReachableNext(c, s3, Go);
    ReturnGoes(c, s3);
    t := ReturnStep(s3);
  }

  lemma NotifyCalled(c: Config, s: State)
    requires s.signals.owed > 0
    ensures Next(c, s, Notify) == s.(signals := s.signals.(owed := s.signals.owed - 1, notify := true))
  {}

  /** A message is written, announced and its notify made. */
  lemma MessageArrives(c: Config, s: State) returns (t: State)
    requires Reachable(c, s) && s.mail.onDuty && s.mail.inbox == [] && s.signals.owed == 0
    ensures Reachable(c, t)
    ensures t == s.(mail := t.mail, signals := s.signals.(notify := true))
    ensures t.mail.inbox == [|s.mail.fates|] && t.mail.HasReached()
    ensures t.mail.prompts == s.mail.prompts && t.mail.promptsOpen == s.mail.promptsOpen
  {
    hide Reachable, Next;
    var row := |s.mail.fates|;
    DeliveryGoes(c, s, WriteMessage);
    ReachableNext(c, s, WriteMessage);
    var s1 := DeliveryStep(s, WriteMessage).value;
    DeliveryGoes(c, s1, SeeOnDuty(row));
    ReachableNext(c, s1, SeeOnDuty(row));
    var s2 := DeliveryStep(s1, SeeOnDuty(row)).value;
    DeliveryGoes(c, s2, Announce(row, false));
    ReachableNext(c, s2, Announce(row, false));
    var s3 := DeliveryStep(s2, Announce(row, false)).value;
    NotifyCalled(c, s3);
    ReachableNext(c, s3, Notify);
    t := Next(c, s3, Notify);
  }

  /** A parked agent eats the wake and keeps the message. */
  lemma NotifyWhileParked(c: Config, s: State) returns (t: State)
    requires Reachable(c, s) && s.pc.AtSelect? && s.lifecycle.Parked? && s.signals.notify
    ensures Reachable(c, t)
    ensures t == s.(signals := s.signals.(notify := false, resetPending := false, parkCancel := None))
  {
    hide Reachable, Next;
    ReachableNext(c, s, TakeNotify);
    NotifyTaken(c, s);
    var s1 := Next(c, s, TakeNotify);
    NotifyGoes(c, s1);
    ReachableNext(c, s1, Go);
    var s2 := NotifyStep(s1);
    NotifyGoes(c, s2);
    ReachableNext(c, s2, Go);
    var s3 := NotifyStep(s2);
    NotifyGoes(c, s3);
    ReachableNext(c, s3, Go);
    t := NotifyStep(s3);
  }

  lemma ParkedForgets(c: Config) returns (t: State)
    ensures Reachable(c, t) && Forgotten(t) && Promptable(t) && t.lifecycle.Parked? && t.counts.transientFails == 0
  {
    hide Reachable;
    var s1 := ParkedByTheGate(c);
    var s2 := MessageArrives(c, s1);
    t := NotifyWhileParked(c, s2);
  }

  /** A prompt's round that ends held leaves the forgotten message where it is. */
  lemma HeldRoundForgets(c: Config, s: State, o: Outcome) returns (t: State)
    requires Reachable(c, s) && Forgotten(s) && Promptable(s) && 0 < c.maxToolRounds
    requires o.BudgetExceeded? || (o.ChainExhausted? && Saturated(s.counts.transientFails) <= c.maxTransientRetries)
    ensures Reachable(c, t) && Forgotten(t)
    ensures if o.BudgetExceeded? then t.lifecycle.Waiting? else t.lifecycle.Retrying?
  {
    hide Reachable, Next;
    var s1 := PromptPark(c, s, o);
    ReachableNext(c, s1, Go);
    ReturnGoes(c, s1);
    t := ReturnStep(s1);
  }

  /**
   The promise about announced mail is about Idle alone: in every other state the loop rests in, some
   run has taken the wake and left the message.
   */
  lemma OnlyIdleIsPromised(c: Config)
    requires 0 < c.maxToolRounds && 0 < c.maxTransientRetries
    ensures forall s :: Reachable(c, s) && Forgotten(s) ==> !s.lifecycle.Idle? && !s.lifecycle.Running?
    ensures exists s :: Reachable(c, s) && Forgotten(s) && s.lifecycle.Parked?
    ensures exists s :: Reachable(c, s) && Forgotten(s) && s.lifecycle.Waiting?
    ensures exists s :: Reachable(c, s) && Forgotten(s) && s.lifecycle.Retrying?
  {
    forall s | Reachable(c, s) && Forgotten(s) ensures !s.lifecycle.Idle? && !s.lifecycle.Running? {
      ForgottenIsParked(c, s);
    }
    hide Reachable, Forgotten, Promptable;
    var s := ParkedForgets(c);
    var w := HeldRoundForgets(c, s, BudgetExceeded);
    var r := HeldRoundForgets(c, s, ChainExhausted);
  }

  lemma ForgottenIsParked(c: Config, s: State)
    requires Reachable(c, s) && Forgotten(s)
    ensures !s.lifecycle.Idle? && !s.lifecycle.Running?
  {
    RestStates(c, s);
    hide Reachable, Inv;
    if s.lifecycle.Idle? { NoLostWakeup(c, s); }
  }

  // ------------------------------------------------------------------ a generation that comes round

  /** Nothing on its way to the loop, and no mail. */
  predicate Quiet(s: State) {
    Promptable(s) && s.mail.inbox == [] && !Covered(s.signals) && s.signals.parkCancel.None? && !s.signals.resetPending
  }

  lemma DrainsNothing(c: Config, s: State) returns (t: State)
    requires Reachable(c, s) && s.pc == Return(Prompt, Awake) && s.mail.inbox == []
    ensures Reachable(c, t) && t == s.(pc := AtSelect)
  {
    hide Reachable, Next;
    ReachableNext(c, s, Go);
    ReturnGoes(c, s);
    var s1 := ReturnStep(s);
    DrainGoes(c, s1);
    ReachableNext(c, s1, Go);
    t := DrainStep(s1);
  }

  /** One prompt, one wait: one more park, and every request still to be stamped is as old as before. */
  lemma OneMorePark(c: Config, s: State) returns (t: State)
    requires Reachable(c, s) && Quiet(s) && 0 < c.maxToolRounds
    ensures Reachable(c, t) && Quiet(t) && t.lifecycle.Waiting?
    ensures t.counts.parks == s.counts.parks + 1 && t.signals.loading == s.signals.loading
  {
    hide Reachable, Next;
    var s1 := PromptPark(c, s, BreakWait(0));
    t := DrainsNothing(c, s1);
  }

  lemma {:induction false} MoreParks(c: Config, s: State, n: nat) returns (t: State)
    requires Reachable(c, s) && Quiet(s) && s.lifecycle.Waiting? && 0 < c.maxToolRounds
    ensures Reachable(c, t) && Quiet(t) && t.lifecycle.Waiting?
    ensures t.counts.parks == s.counts.parks + n && t.signals.loading == s.signals.loading
  {
    hide Reachable, Quiet;
    t := s;
    if n > 0 {
      var s1 := MoreParks(c, s, n - 1);
      t := OneMorePark(c, s1);
    }
  }

  lemma StampGoes(c: Config, s: State, st: Stamp)
    ensures Next(c, s, LoadEpoch) ==
            s.(signals := s.signals.(loading := s.signals.loading + multiset{Stamp(s.signals.parkEpoch, s.counts.parks)}))
    ensures st in s.signals.loading ==>
              Next(c, s, StampCancel(st)) ==
              Owing(s.(signals := s.signals.(loading := s.signals.loading - multiset{st}, parkCancel := Some(st))))
  {}

  /** A request read long ago is stamped and its notify taken: the loop stands at the drain of the cell. */
  lemma RequestLands(c: Config, s: State, st: Stamp) returns (t: State)
    requires Reachable(c, s) && Quiet(s) && s.lifecycle.Waiting? && st in s.signals.loading
    ensures Reachable(c, t) && t.pc.NotifyCancel? && t.signals.parkCancel == Some(st)
    ensures t.lifecycle == s.lifecycle && t.counts == s.counts && t.log == s.log
  {
    hide Reachable, Next;
    StampGoes(c, s, st);
    ReachableNext(c, s, StampCancel(st));
    var s1 := Owing(s.(signals := s.signals.(loading := s.signals.loading - multiset{st}, parkCancel := Some(st))));
    NotifyCalled(c, s1);
    ReachableNext(c, s1, Notify);
    var s2 := Next(c, s1, Notify);
    NotifyTaken(c, s2);
    ReachableNext(c, s2, TakeNotify);
    var s3 := Next(c, s2, TakeNotify);
    NotifyGoes(c, s3);
    ReachableNext(c, s3, Go);
    t := NotifyStep(s3);
  }

  /** The last move ended a park by a cancel that named the park 2^64 before it. */
  predicate EndedAnother(s: State) {
    s.log != [] &&
    (var last := s.log[|s.log| - 1];
     last.cause.ParkCancel? && last.to.Idle? && last.cause.ended == last.cause.named + U64)
  }

  lemma CancelComesRound(c: Config, s: State, st: Stamp)
    requires Reachable(c, s) && s.pc.NotifyCancel? && s.signals.parkCancel == Some(st) && s.lifecycle.WakePark()
    requires s.counts.parks == st.park + U64
    ensures EndedAnother(Next(c, s, Go))
  {
    hide *;
    InForceIsNewest(c, s);
    CancelIsExact(c, s);
    WholeTurn();
    assert s.counts.inForce - st.park == U64;
    LastMove(s, Next(c, s, Go), Move(s.lifecycle, Idle, ParkCancel(st.park, s.counts.inForce), s.now));
  }

  lemma WholeTurn()
    ensures U64 % U64 == 0
  {}

  lemma LastMove(s: State, t: State, m: Move)
    requires t.log == s.log + [m] && m.to.Idle? && m.cause.ParkCancel? && m.cause.ended == m.cause.named + U64
    ensures EndedAnother(t)
  {}

  lemma EpochRead(c: Config, s: State) returns (t: State)
    requires Reachable(c, s) && Quiet(s)
    ensures Reachable(c, t) && Quiet(t) && t.lifecycle == s.lifecycle && t.counts == s.counts
    ensures exists st :: st in t.signals.loading && st.park == s.counts.parks
  {
    var st := Stamp(s.signals.parkEpoch, s.counts.parks);
    hide Reachable, Next;
    StampGoes(c, s, st);
    ReachableNext(c, s, LoadEpoch);
    t := Next(c, s, LoadEpoch);
    assert st in t.signals.loading;
  }

  /** A cancel really can end a park it does not name: the one armed 2^64 parks after the named one. */
  lemma AnotherParkIsEnded(c: Config)
    requires 0 < c.maxToolRounds
    ensures exists s :: Reachable(c, s) && EndedAnother(s)
  {
    var s := Fresh(0);
    ReachableStart(c, s);
    assert Quiet(s);
    hide Reachable, Next, Quiet, EndedAnother;
    var s1 := OneMorePark(c, s);
    var s2 := EpochRead(c, s1);
    var st :| st in s2.signals.loading && st.park == s1.counts.parks;
    var s3 := MoreParks(c, s2, U64);
    var s4 := RequestLands(c, s3, st);
    CancelComesRound(c, s4, st);
    ReachableNext(c, s4, Go);
  }

  lemma InForceIsNewest(c: Config, s: State)
    requires Reachable(c, s) && s.lifecycle.WakePark()
    ensures s.counts.inForce == s.counts.parks
  { ReachableInv(c, s); }

  // ------------------------------------------------------------------ counters at their limits

  /** The largest heartbeat setting: a bare response always goes round again. */
  lemma {:induction false} MoreRounds(c: Config, s: State, n: nat) returns (t: State)
    requires Reachable(c, s) && s.pc.Mint? && !s.budgetExceeded && 0 < c.maxToolRounds
    requires c.maxHeartbeatRounds == U32_MAX
    ensures Reachable(c, t) && t.pc.Mint? && !t.budgetExceeded && t.counts.rounds == s.counts.rounds + n
  {
    hide Reachable, Next;
    t := s;
    if n > 0 {
      var s1 := MoreRounds(c, s, n - 1);
      var s2 := RoundRun(c, s1, BareAssistant);
      ParkGoes(c, s2, 0);
      ReachableNext(c, s2, Go);
      t := ReportStep(c, s2);
    }
  }

  /**
   The bound on one wake's work, exactly: for every setting the configuration accepts, it holds in every
   reachable state if and only if the heartbeat limit is below the largest 32-bit value.
   */
  lemma WorkBoundExactly(c: Config)
    requires 0 < c.maxToolRounds && c.maxHeartbeatRounds <= U32_MAX
    ensures (forall s :: Reachable(c, s) ==> s.counts.rounds <= 2 * RunBound(c)) <==> c.maxHeartbeatRounds < U32_MAX
  {
    if c.maxHeartbeatRounds < U32_MAX {
      forall s | Reachable(c, s) ensures s.counts.rounds <= 2 * RunBound(c) { WakeWorkIsBounded(c, s); }
    } else {
      var s := Fresh(0);
      ReachableStart(c, s);
      hide Reachable;
      var s1 := PromptTaken(c, s);
      var s2 := WakeEntered(c, s1);
      var s3 := MoreRounds(c, s2, 2 * RunBound(c) + 1);
    }
  }

  /** One more failed chain arms one more retry, while the count cannot pass the limit. */
  lemma {:induction false} MoreRetries(c: Config, s: State, n: nat) returns (t: State)
    requires Reachable(c, s) && Promptable(s) && 0 < c.maxToolRounds && c.maxTransientRetries == U32_MAX
    ensures Reachable(c, t) && Promptable(t) && t.counts.retriesArmed == s.counts.retriesArmed + n
  {
    hide Reachable, Next;
    t := s;
    if n > 0 {
      var s1 := MoreRetries(c, s, n - 1);
      var s2 := PromptPark(c, s1, ChainExhausted);
      ReachableNext(c, s2, Go);
      ReturnGoes(c, s2);
      t := ReturnStep(s2);
    }
  }

  /** The bound on armed retries holds in every reachable state if and only if the limit is below the largest 32-bit value. */
  lemma RetryBoundExactly(c: Config)
    requires 0 < c.maxToolRounds && c.maxTransientRetries <= U32_MAX
    ensures (forall s :: Reachable(c, s) ==> s.counts.retriesArmed <= c.maxTransientRetries) <==>
            c.maxTransientRetries < U32_MAX
  {
    if c.maxTransientRetries < U32_MAX {
      forall s | Reachable(c, s) ensures s.counts.retriesArmed <= c.maxTransientRetries { RetriesAreBounded(c, s); }
    } else {
      var s := Fresh(0);
      ReachableStart(c, s);
      hide Reachable;
      var s1 := MoreRetries(c, s, U32_MAX + 1);
    }
  }
}
