# Kallipai agent runtime: verified model

This project models the parts of the agent runtime in which several pieces of code have to
agree with each other, and proves what they promise together.

| Module | What it models |
|---|---|
| `Lifecycle`, `WakeLoop` | One agent task as an interleaved step machine: the `select!` arms, the round loop, and the two-stage parking of an agent, against deliveries, other producers, timers, interrupts and cancels that may move between any two of its pieces. |
| `WakeInvariant`, `WakeSafety` | What every step keeps, and the theorems about every run. |
| `WakeOutcomes` | What each outcome of a round, each kind of wake and each ending of a delivery leads to, in its own terms. |
| `WakeRuns` | Runs that show where those theorems end, and the exact bounds they give. |
| `Timers`, `AgentTask` | The same loop as an object updated in place: deadline cells, permits and a list of detached sleepers under an abstraction function. Each method is proved equal to its piece of the machine; `Settle` demands a legal move, so serving a schedule proves every move legal. |
| `Paths`, `Delegation`, `LockRules`, `DirLock` | Directory write-locks: component-wise path order, the delegation forest, the conflict rule as a relation, and the manager whose scans refine it. |
| `Fleet`, `FleetRuns` | The callers of the locks: creation and removal in their three steps each, death, reactivation, and the full handoff of a workspace; and the runs that end badly. |
| `HistoryLog`, `HistoryReader`, `HistoryAppend` | The append-only history: the last record per turn over the flattened log, the three early-exit scans that must agree with it, and where an appended record lands. |
| `Approval` | The approval store and the life of a deferred call over every sequence of calls. |
| `RetryDecision`, `RetryLoop`, `RetryDeadline` | The retry table, the send loop of one call, and the deadline against the worst-case estimate of the startup check. |
| `Summary` | Summary records as string algebra. |
| `PersistedMessage` | The persistence boundary of messages: two on-disk shapes, one in-place rewrite. |
| `SkillOrder`, `SkillIndex` | The order of one level, and the depth-bounded skill index over a disk that may contain link cycles. |

How the wake loop is cut into pieces. The loop's steps end wherever another task can be
scheduled or another thread can observe shared state: arming a park is three steps (deadline,
generation, mirrored state), the notify arm is five, and handing over a park cancel is three
(read the generation, stamp the cell, notify). A delivery pushes its inbox row first, reads the
duty flag and the parked mark later, and only then owes its notify; a producer *owes* its notify
until it calls it. `log` records every lifecycle move with its cause and time; `fates`, `reached`,
`parks`, `inForce`, `rounds` and `retriesArmed` record what happened and are never read by the loop.

What the proofs found where the code and its description part ways, or where a promise ends:

- Mail at Idle has a stored wake exactly when some wake was stored or owed, or a notify made, since
  it was written. Mail restored at a spawn and mail written off duty have none, and an idle agent
  sleeps on them until the next notify (`NoLostWakeup`, `RestoredMailWaits`, `OffDutyMailWaits`).
- Even announced mail is promised a wake at Idle alone: in each of Parked, Waiting and Retrying some
  run has taken the wake and left the message (`OnlyIdleIsPromised`).
- A park cancel names a 64-bit generation that wraps, so it ends the park armed 2^64 parks after the
  one it names, and a run does so (`CancelIsExact`, `AnotherParkIsEnded`).
- The bound on one wake's rounds and the bound on armed retries hold for every setting but the
  largest 32-bit one, where the counters wrap and saturate (`WorkBoundExactly`, `RetryBoundExactly`).
- Every state of a run of the lock's callers is nested exactly when none of its handoffs takes a
  workspace in which somebody still holds a lock (`NestedExactly`). The creation route's exclusivity
  check does not say that: it reads the mode of registered siblings only, so a carve-out reserved
  beside a handoff that is only reserved passes it and may lock first (`RaceBreaksNesting`); and a
  sibling that left the registry may still hold its lock (`RemovalBreaksNesting`).
- A workspace handed back to a supervisor that was removed meanwhile stays locked by it for good:
  no lock is ever stranded exactly when no handoff is handed back to a supervisor already done with
  its own teardown (`StrandedExactly`, `StrandedForGood`, `RemovalStrandsALock`).
- A faulted agent is promised to hold no lock, and holds none exactly while no handoff child is removed
  after its supervisor faulted: the teardown hands the workspace back without looking
  (`FaultedExactly`, `RemovalLocksAFaultedAgent`).
- A notify with no row and no verdict behind it starts no round (`NotifyStartsExactly`); the media
  ingest route, which writes neither, says that its notify shows an idle agent the new content.
- `transfer` checks neither the cap nor the nesting of locks: it keeps each exactly when
  `TransferKeepsCapExactly` and `TransferKeepsNestingExactly` say.
- `max_turn_id` returns the id of the *newest* turn record: the highest exactly while no turn is
  appended below the highest before it (`NewestIsMaxAfterWrite`, `AppendKeepsMaxExactly`).
- The rebuilt window is promised ascending and is so exactly when no kept turn was repaired after
  a higher one was written (`TailAscendsExactly`, `RepairReordersWindow`).
- An append after a crash that lost the last newline joins the torn line: both that line and
  the new record become unreadable (`TornTailSwallows`). On a clock that stepped back over
  midnight UTC a repair is shadowed by a later file that holds the same turn (`AppendWinsExactly`).
- The retry deadline can cut an episode exactly when the schedule's last backoff could end past it.
  A silent startup check rules that out; the shipped settings can be cut however short the calls
  (`CutExactly`, `SilentCheckNeverCuts`, `FactoryIsCut`).
- The upstream serializer and deserializer lose exactly the assistant messages that call no
  tool; the boundary repairs exactly that (`DerivedPairLosesPlainReplies`).
- A category's label counts files by name while it is unexpanded and readable files once it is
  expanded: the two agree exactly when every skill file in it can be read (`LabelsAgreeExactly`).

## Model

| member | source | states |
|---|---|---|
| WakeSafety.NoLostWakeup | crates/kallipai-adk/src/agent_task.rs:664-757 | In every interleaving, at the select and Idle with no notify owed, undelivered mail has a stored permit if and only if its oldest row was written before some wake was stored or owed; a pending approval always has one |
| WakeSafety.AnnouncedMailIsCovered | crates/kallipai-tagma/src/delivery.rs:455-601 | Mail whose delivery read on duty and went on to its notify, and every older row, is never left at Idle without a permit |
| WakeSafety.UncoveredMailWasQuiet | crates/kallipai-tagma/src/delivery.rs:455-560 | Every row at Idle without a permit was never announced: restored, written off duty, deferred, or still at its delivery's reads, with no notify since |
| WakeInvariant.DeliveryReaches | crates/kallipai-tagma/src/delivery.rs:455-606 | Every step of a delivery, and of the duty route, leaves no row that a wake was to reach without one |
| WakeInvariant.MailDelivery | crates/kallipai-tagma/src/delivery.rs:455-606 | Every such step keeps each row counted once, the undelivered ones in order, and every announced row reached |
| WakeRuns.RestoredMailWaits | crates/kallipai-tagma/src/lifecycle/spawn.rs:95-104 | A reachable idle state holds a restored row with nothing stored or owed |
| WakeRuns.OffDutyMailWaits | crates/kallipai-tagma/src/delivery.rs:473-482 | A reachable idle state holds a row written off duty with nothing stored or owed |
| WakeRuns.OnlyIdleIsPromised | crates/kallipai-adk/src/agent_task.rs:713-727 | No reachable rest state but Parked, Waiting and Retrying forgets announced mail, and each of those three does in some run |
| WakeSafety.IdleWorkIsServed | crates/kallipai-adk/src/agent_task.rs:664-757 | From any such state the stored permit alone brings the loop, in six of its own pieces, into a round with every undelivered row delivered |
| WakeSafety.NotifyStartsExactly | crates/kallipai-adk/src/agent_task.rs:729-757 | Unless it ends or meets a park, a notify starts a round if and only if there is a row to deliver or a verdict to hear; otherwise nothing but the cells changes |
| WakeSafety.NoLostRequest | crates/kallipai-adk/src/agent_task.rs:664-691 | A stamped park cancel and a pending profile reset never sit at the select without a stored permit |
| WakeSafety.MailConserved | crates/kallipai-adk/src/agent_task.rs:1226-1241 | In every run each row ever written is delivered once or undelivered, never both, and the undelivered ones keep their order, injected rows marked out of order included |
| WakeSafety.TalkConserved | crates/kallipai-adk/src/runner.rs:101-124 | In every run the prompts heard, followed by those still in the channel, are exactly the prompts sent, in order; likewise the verdicts told and pending |
| WakeOutcomes.DeliveryEnds | crates/kallipai-tagma/src/delivery.rs:484-606 | A delivery that read no parked mark owes exactly one notify and an injecting one sends its row to the prompts; one that read the mark owes none and at most kicks; the row stays in the inbox |
| WakeOutcomes.OnDutyServesTheBacklog | crates/kallipai-tagma/src/routes/agent/lifecycle.rs:401-418 | Coming on duty wakes an idle agent into a round with everything buffered delivered, rows no wake had reached included |
| WakeSafety.OnlyAwakeDrains | crates/kallipai-adk/src/agent_task.rs:1226-1241 | Only a first round that ended awake hands the inbox, whole, to one more round; every other ending leaves every row; no fuse, count or lifecycle moves between the two rounds |
| WakeSafety.NoLostTimer | crates/kallipai-adk/src/agent_task.rs:1350-1428 | At the select Waiting, Retrying and a quota park have their fuse armed (the first two with the very deadline they announce), and every armed deadline has a live sleeper or a permit that is already due |
| WakeSafety.ArmedFuseRings | crates/kallipai-adk/src/agent_task.rs:758-812 | From any reachable select, waiting out any armed deadline starts a round and clears that fuse |
| WakeSafety.NoEarlyTimer | crates/kallipai-adk/src/agent_task.rs:758-812 | A fuse wake begins only on the check of its own deadline, armed at that moment and passed |
| WakeOutcomes.BreakWaitsItsSeconds | crates/kallipai-adk/src/agent_task.rs:996-1015 | After any break with a wait the agent is Waiting until now plus the seconds asked for, with the wait fuse armed for that moment and no other fuse touched, a new generation published and the transient count cleared |
| WakeOutcomes.BudgetIsProbed | crates/kallipai-adk/src/agent_task.rs:1130-1162 | A spent budget waits exactly 600 seconds, held |
| WakeOutcomes.ChainWaitsItsBackoff | crates/kallipai-adk/src/agent_task.rs:1064-1108 | A failed chain is charged once and, inside the limit, waits exactly the drawn backoff as that attempt of the limit |
| WakeOutcomes.ChainParksPastTheLimit | crates/kallipai-adk/src/agent_task.rs:1095-1103 | Past the limit it parks for good under its own reason with nothing armed |
| WakeOutcomes.QuotaWaitsItsPacing | crates/kallipai-adk/src/agent_task.rs:1109-1129 | A quota block parks with the pacing fuse armed for exactly its delay, charges and clears nothing, and publishes no generation |
| WakeOutcomes.SettledAtOnce | crates/kallipai-adk/src/agent_task.rs:990-1193 | Every other outcome: each hard park under its own reason, interrupts and idle breaks to Idle awake, a bare answer round again until one more would pass the limit; fuses and signals untouched, the transient count cleared |
| WakeOutcomes.ParkLastsItsSeconds | crates/kallipai-adk/src/agent_task.rs:1279-1391 | From any reachable outcome that parks on a fuse, left alone, the next round begins exactly the asked-for seconds later |
| WakeOutcomes.PromptWakes | crates/kallipai-adk/src/agent_task.rs:628-655 | A prompt starts a wake from every state and drops all three deadlines, no permit, sleeper or count |
| WakeOutcomes.NotifyWakes | crates/kallipai-adk/src/agent_task.rs:712-757 | A notify with work drops all three deadlines, one without work none; a parked agent swallows it and keeps its mail |
| WakeOutcomes.FuseWakes | crates/kallipai-adk/src/agent_task.rs:758-812 | A fuse starts a wake if and only if its own deadline is armed and passed, and drops that one alone; a stale permit is swallowed |
| WakeOutcomes.GateExactly | crates/kallipai-adk/src/agent_task.rs:950-982 | A blocked gate parks as a fatal error before any round; a passed one starts the heartbeat count at zero |
| WakeOutcomes.RoundTopExactly | crates/kallipai-adk/src/runner.rs:101-124 | At the tool limit nothing is read; before it all waiting prompts are, then the budget stops the round, then all pending verdicts are told |
| WakeSafety.EveryMoveIsGood | crates/kallipai-adk/src/lifecycle.rs:75-94 | Every run's log is one legal walk from Idle in time order; own-park timer wakes are due, notifies never wake a parked agent, a drained round follows rest, an interrupt settle follows a cancelled round token |
| WakeSafety.RestStates | crates/kallipai-adk/src/agent_task.rs:928-1241 | Never Running at the select, at rest between the two rounds of a drain, and terminated for a cancel only when the lifecycle token is cancelled |
| WakeSafety.CancelEndsTheNamedPark | crates/kallipai-adk/src/agent_task.rs:1265-1333 | Every park a cancel ended in a run is the park current when the request read the generation, or one at least 2^64 parks later |
| WakeSafety.CancelIsExact | crates/kallipai-adk/src/agent_task.rs:681-711 | In every reachable state the drain ends a park if and only if one is in force and its distance from the named one is a multiple of 2^64; it is the named one if and only if fewer than 2^64 were armed since; then every fuse and the transient count are cleared and the loop re-notified; otherwise nothing moves; the cell never survives |
| WakeRuns.AnotherParkIsEnded | crates/kallipai-adk/src/agent_task.rs:1279-1333 | A run ends the park armed 2^64 parks after the one the request named |
| WakeRuns.WorkBoundExactly | crates/kallipai-adk/src/agent_task.rs:1016-1038 | For every accepted setting, one outer wake runs at most 2 * (max_heartbeat_rounds + 1) * max_tool_rounds loop rounds in every reachable state if and only if max_heartbeat_rounds is below the largest 32-bit value |
| WakeSafety.RetriesAreBounded | crates/kallipai-adk/src/agent_task.rs:1064-1108 | At most max_transient_retries retries are armed between resets, and the hard park comes after exactly that many |
| WakeRuns.RetryBoundExactly | crates/kallipai-adk/src/agent_task.rs:1064-1108 | For every accepted setting the bound on armed retries holds in every reachable state if and only if max_transient_retries is below the largest 32-bit value |
| WakeSafety.SaturatedCountNeverParks | crates/kallipai-adk/src/agent_task.rs:1074-1076 | At the one setting where the saturating count cannot pass the limit, retries are never exhausted |
| WakeSafety.ReachableInv | crates/kallipai-adk/src/agent_task.rs:594-815 | The joint invariant holds in every state any schedule can reach |
| WakeSafety.RunReaches | crates/kallipai-adk/src/agent_task.rs:594-815 | Running any schedule from a start state ends in a reachable state |
| WakeSafety.StepKeeps | crates/kallipai-adk/src/agent_task.rs:594-815 | Every event of the loop or the environment keeps the joint invariant |
| WakeInvariant.LiveFire | crates/kallipai-adk/src/agent_task.rs:1350-1365 | A sleeper that ends leaves the permit that its armed deadline needs, whatever family it belongs to |
| WakeInvariant.LiveChecked | crates/kallipai-adk/src/agent_task.rs:1403-1428 | A spent permit whose deadline has not passed leaves a live sleeper behind |
| WakeInvariant.RoundReport | crates/kallipai-adk/src/agent_task.rs:1013-1038 | Acting on an outcome keeps the rounds spent inside the heartbeat laps allowed |
| WakeLoop.SelectStep | crates/kallipai-adk/src/agent_task.rs:626-671 | Taking a select arm moves neither the lifecycle nor the published generation nor the cancel cell |
| WakeLoop.NotifyStep | crates/kallipai-adk/src/agent_task.rs:664-757 | The pieces of the notify arm publish no generation, and only the drain empties the cancel cell |
| WakeLoop.ReportStep | crates/kallipai-adk/src/agent_task.rs:985-1196 | A verdict touches no fuse, signal or message, and settles only Idle or a non-quota park by itself |
| WakeLoop.ArmParkStep | crates/kallipai-adk/src/agent_task.rs:1279-1301 | Arming a park publishes nothing and leaves the lifecycle for the mirror |
| AgentTask.AgentTask.Serve | crates/kallipai-adk/src/agent_task.rs:594-815 | Serving any schedule from an invariant state ends in the machine's state for it, every settle legal on the way |
| AgentTask.AgentTask.constructor | crates/kallipai-tagma/src/lifecycle/spawn.rs:95-104 | A task is born idle with a fresh notify, no wake stored, over whatever rows its inbox holds |
| Timers.TimerSet.Arm | crates/kallipai-adk/src/agent_task.rs:1350-1391 | Arming stores the deadline cell and adds one detached sleeper, leaving permits and earlier sleepers |
| Timers.TimerSet.SleeperEnds | crates/kallipai-adk/src/agent_task.rs:1358-1363 | Exactly one sleeper leaves the list, whichever of several alike |
| AgentTask.AgentTask.Round | crates/kallipai-adk/src/agent_task.rs:945-990 | A run up to its outcome: settle Running, modality gate, round token, round loop |
| AgentTask.AgentTask.ReportOutcome | crates/kallipai-adk/src/agent_task.rs:985-1196 | Each outcome's count, settle and disposition; every settle legal |
| AgentTask.AgentTask.Park | crates/kallipai-adk/src/agent_task.rs:1279-1313 | Deadline, then generation, then mirrored state |
| Paths.DescendantsContiguous | crates/kallipai-adk/src/dirlock.rs:522-531 | In component-wise order every path between a path and one of its descendants is a descendant too |
| Paths.AncestorFirst | crates/kallipai-adk/src/dirlock.rs:522-531 | A path comes before everything below it |
| LockRules.OverlapIsUnique | crates/kallipai-adk/src/dirlock.rs:483-533 | The conflict rule (nearest blocking ancestor, else first descendant, else free) names one answer |
| DirLock.DirLockManager.AncestorConflict | crates/kallipai-adk/src/dirlock.rs:504-521 | The ancestor walk finds the nearest lock above that is the caller's own or not delegated to it, or there is none |
| DirLock.DirLockManager.DescendantConflict | crates/kallipai-adk/src/dirlock.rs:522-531 | The range scan that stops at the first non-descendant finds the first locked descendant, or there is none anywhere |
| DirLock.DirLockManager.OverlapConflict | crates/kallipai-adk/src/dirlock.rs:483-533 | The two early-exit loops compute the conflict rule |
| DirLock.DirLockManager.CountHeld | crates/kallipai-adk/src/dirlock.rs:456-461 | The number of paths the agent holds |
| DirLock.DirLockManager.Acquire | crates/kallipai-adk/src/dirlock.rs:178-272 | Idempotent on an own exact path, busy on another's, then the conflict rule, then the cap; the map changes only on success |
| DirLock.DirLockManager.Release | crates/kallipai-adk/src/dirlock.rs:278-305 | Drops exactly the caller's own lock on that path; a vanished path changes nothing |
| DirLock.DirLockManager.ReleaseAll | crates/kallipai-adk/src/dirlock.rs:352-363 | Drops exactly the agent's locks |
| DirLock.DirLockManager.Transfer | crates/kallipai-adk/src/dirlock.rs:319-347 | Reassigns the lock exactly when `from` holds it, and says so |
| DirLock.DirLockManager.ProbeConflict | crates/kallipai-adk/src/dirlock.rs:428-447 | The dry run answers by the same conflict rule and changes nothing |
| DirLock.DirLockManager.WritePaths | crates/kallipai-adk/src/dirlock.rs:369-376 | Exactly the paths the agent holds |
| DirLock.DirLockManager.ReadonlyPaths | crates/kallipai-adk/src/dirlock.rs:386-393 | Exactly the locked paths it does not hold, so every locked path is in one agent's writable list and everyone else's read-only list |
| LockRules.AcquireKeepsNesting | crates/kallipai-adk/src/dirlock.rs:178-272 | Acquiring with any chain of one's own superiors keeps every inner lock with a delegate of the outer one's holder |
| LockRules.ReleaseKeepsNesting | crates/kallipai-adk/src/dirlock.rs:278-363 | Releasing keeps it |
| LockRules.TransferKeepsNestingExactly | crates/kallipai-adk/src/dirlock.rs:307-347 | A transfer keeps it if and only if every enclosing holder is above the receiver and every enclosed holder below it |
| LockRules.HandoffDownExactly | crates/kallipai-adk/src/dirlock.rs:307-318 | A supervisor's handoff to its child keeps it if and only if every carve-out inside belongs under that child |
| LockRules.HandoffUpExactly | crates/kallipai-adk/src/dirlock.rs:307-318 | Handing it back keeps it if and only if the supervisor holds no lock around it |
| Fleet.NestedExactly | crates/kallipai-tagma/src/lifecycle/workspace.rs:248-304 | For every run of creations, handoffs, deaths, reactivations and removals, however their steps interleave: all its states are nested if and only if no handoff transfers a workspace with a lock inside |
| Fleet.FleetsStayNested | crates/kallipai-tagma/src/lifecycle/workspace.rs:248-304 | In such a run the inner of two locks belongs to a delegate of the outer one's holder, and each agent locks at most its own workspace |
| Fleet.HandoffDownNests | crates/kallipai-tagma/src/lifecycle/workspace.rs:266-274 | The transfer to a reserved child keeps nesting if and only if nobody holds a lock inside the workspace |
| Fleet.HandBackNests | crates/kallipai-tagma/src/routes/agent/lifecycle.rs:508-543 | The transfer back always keeps it: a supervisor locks nothing around its own workspace |
| FleetRuns.RaceBreaksNesting | crates/kallipai-tagma/src/routes/agent/permissions.rs:40-62 | A run the creation route's own checks allow, with a carve-out reserved beside an unregistered handoff, ends unnested |
| FleetRuns.RemovalBreaksNesting | crates/kallipai-tagma/src/routes/agent/lifecycle.rs:475-494 | So does one in which a sibling left the registry and has not let go of its lock |
| Fleet.StrandedExactly | crates/kallipai-tagma/src/routes/agent/lifecycle.rs:508-543 | No state of a run leaves a lock with an agent that has let go of everything if and only if no handoff is handed back to a supervisor that has |
| Fleet.StrandedForGood | crates/kallipai-tagma/src/routes/agent/lifecycle.rs:508-543 | No later step of any caller takes such a lock away |
| Fleet.FaultedExactly | crates/kallipai-tagma/src/lifecycle/spawn.rs:441-446 | In all states of a run no faulted agent holds a lock, as the source promises, if and only if no handoff is handed back to a faulted supervisor |
| FleetRuns.RemovalLocksAFaultedAgent | crates/kallipai-tagma/src/routes/agent/lifecycle.rs:513-540 | A run of admitted creations, a fault and a removal leaves a faulted supervisor holding the workspace of its removed handoff |
| FleetRuns.RemovalStrandsALock | crates/kallipai-tagma/src/routes/agent/lifecycle.rs:475-494 | A run with a supervisor removed while its handoff child is torn down leaves one |
| LockRules.NoSelfOverlap | crates/kallipai-adk/src/dirlock.rs:483-501 | Under nesting no agent holds two overlapping locks |
| LockRules.CapKept | crates/kallipai-adk/src/dirlock.rs:243-260 | Acquire, release and release-all keep every agent within eight locks |
| LockRules.OthersLeaveLocksAlone | crates/kallipai-adk/src/dirlock.rs:5-10 | Over any sequence of operations by others an agent keeps every lock, and gains none but by a transfer to it |
| LockRules.StepAt | crates/kallipai-adk/src/dirlock.rs:243-362 | One operation creates at most its caller's lock on the named path, and removes or hands over only its caller's |
| LockRules.TransferKeepsCapExactly | crates/kallipai-adk/src/dirlock.rs:319-347 | A transfer keeps the cap if and only if the receiver had room |
| LockRules.WriterIsDeepestHolder | crates/kallipai-adk/src/dirlock.rs:364-393 | A file is effectively writable by the holder of its deepest lock and by nobody else |
| LockRules.OneWriter | crates/kallipai-adk/src/dirlock.rs:364-393 | No file is effectively writable by two agents, in any lock state |
| LockRules.ProbeAgrees | crates/kallipai-adk/src/dirlock.rs:418-447 | Off an own exact path the probe reports a holder iff acquire is busy with it, a self-overlap iff acquire errs so, and nothing iff acquire succeeds or only the cap stops it |
| LockRules.ProbeOfOwnLock | crates/kallipai-adk/src/dirlock.rs:428-447 | On an own exact path acquire is idempotent while the probe reports a delegated lock inside, if any |
| HistoryLog.LastForIsNewest | crates/kallipai-adk/src/history.rs:411-414 | The last-record specification names the last turn record for an id, and none iff there is none |
| HistoryLog.AppendReplacesOneTurn | crates/kallipai-adk/src/history.rs:411-414 | A record at the end of the log replaces its turn for every reader, and no other turn |
| HistoryReader.HydrateTurns | crates/kallipai-adk/src/history.rs:415-468 | One entry per wanted id with a record, its messages, tokens and attachments those of its last record in the whole log, strictly ascending; missing ids exactly the others, ascending; damaged lines counted down to the record that completed the scan |
| HistoryReader.TailTurnsWithinBudget | crates/kallipai-adk/src/history.rs:507-551 | The reverse of the longest newest-first prefix of distinct turns within the budget, each with the messages, tokens and attachments of its last record in the log |
| HistoryReader.TailAscendsExactly | crates/kallipai-adk/src/history.rs:495-551 | The rebuilt window ascends if and only if no kept turn's newest record stands after that of a higher kept turn |
| HistoryReader.RepairReordersWindow | crates/kallipai-adk/src/history.rs:503-551 | A log with a late repair of an older turn whose window comes back out of order |
| HistoryLog.NewestFollowsTheLog | crates/kallipai-adk/src/history.rs:507-548 | Of two turns, the one met later by the newest-first scan has its newest record earlier in the log |
| HistoryLog.LongestFitIsUnique | crates/kallipai-adk/src/history.rs:495-499 | That prefix is unique |
| HistoryLog.NewestIsLast | crates/kallipai-adk/src/history.rs:503-506 | The newest-first list holds each turn once, by its last record |
| HistoryReader.MaxTurnId | crates/kallipai-adk/src/history.rs:475-492 | The id on the newest turn record, 0 without one |
| HistoryLog.NewestIdIsMaxExactly | crates/kallipai-adk/src/history.rs:470-492 | On any log the id returned is the highest if and only if the last turn written was no lower than the highest before it |
| HistoryLog.NewestIsMaxAfterWrite | crates/kallipai-adk/src/history.rs:470-492 | After one more turn the id returned is the highest if and only if the new id is no lower than the highest before |
| HistoryAppend.AppendKeepsMaxExactly | crates/kallipai-adk/src/history.rs:470-492 | The same for an append by the clock's date, a later-dated file with turns included |
| HistoryLog.RepairHidesMax | crates/kallipai-adk/src/history.rs:470-492 | After a repair of any older turn it is not the highest id |
| HistoryAppend.AppendLands | crates/kallipai-adk/src/history.rs:298-335 | An append goes after every line dated up to the clock's date and before every later one, or joins a torn line |
| HistoryAppend.AppendKeepsOrder | crates/kallipai-adk/src/history.rs:375-391 | An append keeps one file a date, in name order |
| HistoryAppend.AppendWinsExactly | crates/kallipai-adk/src/history.rs:298-335 | An intact append wins its turn exactly when no later-dated file holds that turn, and changes no other turn |
| HistoryAppend.ForwardClockWins | crates/kallipai-adk/src/history.rs:375-391 | On a clock that never steps back it always wins |
| HistoryAppend.TornTailSwallows | crates/kallipai-adk/src/history.rs:322-332 | After a torn tail the appended record and the torn line are both lost to every reader |
| Approval.OneLife | crates/kallipai-adk/src/approval.rs:125-265 | Over every call sequence an action lives exactly one of ten lives, and its status is where that life ends |
| Approval.RedeemableExactly | crates/kallipai-adk/src/approval.rs:188-215 | A call is redeemable if and only if it was committed, then approved, and nothing happened to it since |
| Approval.RedeemIsOnceAndLast | crates/kallipai-adk/src/approval.rs:188-239 | After a redeem or a cancel no later move is ever accepted, and after a denial no redeem |
| Approval.OnlyUp | crates/kallipai-adk/src/approval.rs:125-265 | A status only climbs in rank over any continuation |
| Approval.VerdictsConserved | crates/kallipai-adk/src/approval.rs:302-304 | What was drained followed by the queue is exactly the verdicts in order, if and only if no restart dropped a queued one |
| Approval.OneVerdictEach | crates/kallipai-adk/src/approval.rs:149-185 | No id ever gets two verdicts |
| Approval.DeniedSaysWhy | crates/kallipai-adk/src/approval.rs:167-185 | A denied action carries the reason its verdict gave, so the fallback wording is never used |
| Approval.DeferredCallIsKept | crates/kallipai-adk/src/approval.rs:125-146 | Whatever calls follow, an enqueued action keeps the very id, tool name, arguments, defer reason and time it was enqueued with |
| Approval.ReasonsAreTheirs | crates/kallipai-adk/src/approval.rs:167-265 | A stored commit or deny reason is exactly the reason of a commit or denial that was accepted |
| Approval.VerdictsAreGiven | crates/kallipai-adk/src/approval.rs:149-185 | The agent is told of a verdict, with its reason, if and only if it was given and accepted |
| Approval.RedeemedIsTheDeferredCall | crates/kallipai-adk/src/approval.rs:188-215 | What a redeem hands out is the deferred call word for word, with its accepted commit's justification, after an accepted approval |
| Approval.AcceptedExactly | crates/kallipai-adk/src/approval.rs:149-265 | Commit, approve, deny and cancel are accepted if and only if the action's life so far is one they may follow |
| Approval.ApprovalStore.EnqueueAction | crates/kallipai-adk/src/approval.rs:125-146 | Adds one pending action under the drawn id, with the tool name, arguments, defer reason and time given |
| Approval.ApprovalStore.HasNotifications | crates/kallipai-adk/src/approval.rs:308-310 | Says whether a drain now would change anything, and drains nothing |
| Approval.ApprovalStore.CommitAction | crates/kallipai-adk/src/approval.rs:245-265 | Accepted exactly from Pending; stores the reason |
| Approval.ApprovalStore.ApproveAction | crates/kallipai-adk/src/approval.rs:149-164 | Accepted exactly from Committed; queues one notification |
| Approval.ApprovalStore.DenyAction | crates/kallipai-adk/src/approval.rs:167-185 | Accepted exactly from Committed; stores the reason and queues one notification |
| Approval.ApprovalStore.TakeForRedeem | crates/kallipai-adk/src/approval.rs:188-215 | Accepted exactly from Approved; hands out the redeemed action; each refusal names its cause |
| Approval.ApprovalStore.CancelAction | crates/kallipai-adk/src/approval.rs:221-239 | Accepted from every state but the two final ones; returns the previous status |
| Approval.ApprovalStore.DrainNotifications | crates/kallipai-adk/src/approval.rs:302-304 | Hands over the whole queue in order |
| RetryDecision.RetryIsAffordable | crates/kallipai-adk/src/retry/decision.rs:862-984 | A retry is granted only inside budget and deadline, its wait is the schedule's own or ends on the deadline, its class has a record, and a repeated shape or a second throttle gets none |
| RetryDecision.ScheduleDoubles | crates/kallipai-adk/src/retry/decision.rs:851-856 | The schedule opens at the base delay, doubles up to the cap, and the jitter comes on top |
| RetryDecision.BlocksByClass | crates/kallipai-adk/src/retry/decision.rs:737-760 | A failure parks the round if and only if its class is a quota block or a throttle; payment if and only if the quota block was a 402; the other kinds by their class |
| RetryLoop.StreamWithRetry | crates/kallipai-adk/src/retry.rs:229-432 | The loop ends by itself and makes exactly the sends `Sent` describes; each is charged once; one record per completed backoff in order, none for a cut one, and at most one observation, on a switch of a parking kind |
| RetryLoop.SentIsUnique | crates/kallipai-adk/src/retry.rs:246-432 | The ledger and the world settle the number of sends and the exit |
| RetryLoop.SendsStayInBudget | crates/kallipai-adk/src/retry.rs:101-103 | Sends and earlier charges never pass max_retries + 1; the spent-budget error happens only on entry; a cut backoff is the only cancelled exit |
| RetryLoop.ExitTellsWhy | crates/kallipai-adk/src/retry.rs:246-432 | Each way a call leaves, if and only if its last failure's class, the shape spent last, the sends charged and the deadline say so; a cut backoff only where a retry was affordable |
| RetryLoop.SwitchesByClass | crates/kallipai-adk/src/retry.rs:359-400 | What a switch carries, by the last failure's class; exactly the quota and throttle switches leave one rate-limit observation at that send's number |
| RetryLoop.BackoffsByClass | crates/kallipai-adk/src/retry.rs:300-358 | Each completed backoff's record names the failed send, its class's kind, and a wait that is the schedule's own or ends on the deadline |
| RetryLoop.RepeatsAreCut | crates/kallipai-adk/src/retry/decision.rs:877-937 | Within a call no shape that failed last is sent for again, a throttle is sent for again only on the episode's first send, and no other permanent class ever is |
| RetryLoop.RetryWorstCase | crates/kallipai-adk/src/config.rs:533-538 | The fold is the saturated sum of the schedule plus one assumed call per send |
| RetryLoop.InsideTheWorstCase | crates/kallipai-adk/src/config.rs:527-538 | In every world with calls of the assumed length, sleeps and calls stay inside that worst case |
| RetryDeadline.CutExactly | crates/kallipai-adk/src/retry/decision.rs:851-865 | For every policy and every bound on a call, some world that can happen has a fresh episode clamped or handed to the chain with sends left if and only if the schedule's last backoff could end past the deadline |
| RetryDeadline.SilentCheckNeverCuts | crates/kallipai-adk/src/config.rs:563-579 | When the startup check is silent no such world exists for calls of the assumed length |
| RetryDeadline.FactoryIsCut | crates/kallipai-adk/src/config/defaults.rs:39-50 | The shipped settings are cut in some such world, whatever bound the calls keep to |
| RetryDeadline.WaitsAloneCut | crates/kallipai-adk/src/config/defaults.rs:44-50 | A schedule whose waits overrun the deadline can be cut however short the calls |
| RetryDeadline.CheckIsCautious | crates/kallipai-adk/src/config.rs:563-579 | The check also reports settings that no such world cuts |
| Summary.RewrapIsIdentityOrShorter | crates/kallipai-adk/src/context.rs:90-112 | For every text, re-wrapping its record is the identity iff the body starts with neither a newline nor the marker, and strictly shortens otherwise |
| Summary.RewrapEnds | crates/kallipai-adk/src/context.rs:81-112 | Re-wrapping reaches a fixpoint within the body's length |
| Summary.BodyOfWrapped | crates/kallipai-adk/src/context.rs:90-101 | Reading a wrapped text back peels exactly what was wrapped |
| Summary.FreshTextIsKeptWhole | crates/kallipai-adk/src/context.rs:81-128 | A text without the header is carried whole, whatever it opens with, right after the header or the range paragraph |
| Summary.SettledBodyIsKept | crates/kallipai-adk/src/context.rs:90-112 | Behind the header and any number of newlines a settled body is kept exactly |
| Summary.MarkedBodyExactly | crates/kallipai-adk/src/context.rs:96-100 | Behind the marker the body is what follows the first blank line, and empty without one |
| Summary.LineNamesTheRange | crates/kallipai-adk/src/context/window.rs:164-187 | The numbers a range line states, read back from its text: the oldest survivor and how many, or the total, the first and the last |
| Summary.RangeIsPeeledExactly | crates/kallipai-adk/src/context.rs:90-128 | A ranged record gives back its body if and only if the range line has no blank line and no final newline |
| Summary.LineHasNoNewline | crates/kallipai-adk/src/context/window.rs:164-187 | No line a real range writes contains a newline |
| Summary.RangeIsNeverCarried | crates/kallipai-adk/src/context.rs:81-128 | For every text and real range the range is peeled on every re-wrap and replaced on every later eviction |
| PersistedMessage.RoundTrip | crates/kallipai-adk/src/persisted_message.rs:82-100 | Reading what the boundary writes gives back the same message, for every message |
| PersistedMessage.DerivedPairLosesPlainReplies | crates/kallipai-adk/src/persisted_message.rs:5-10 | Without the boundary exactly the assistant messages with no tool call fail to read back |
| PersistedMessage.CurrentIsOnlyFilled | crates/kallipai-adk/src/persisted_message.rs:102-127 | Normalisation changes nothing but the fill if and only if the document has the current shape |
| PersistedMessage.NormalizeIsIdempotent | crates/kallipai-adk/src/persisted_message.rs:107-127 | Normalising twice is normalising once, for every document |
| PersistedMessage.LegacyNormalizesToModern | crates/kallipai-adk/src/persisted_message.rs:102-145 | A legacy document normalises to what its current-shape equivalent is written as and reads as that message, for any number of calls |
| PersistedMessage.FieldsExactly | crates/kallipai-adk/src/persisted_message.rs:107-127 | For any document: a structured reasoning stands against a bare one, a bare string alone becomes its text, another bare value goes without trace, every other field stays |
| PersistedMessage.NestedCallExactly | crates/kallipai-adk/src/persisted_message.rs:132-146 | A nested call's own name and arguments win, its wrapper and type go, whatever else stood outside stays |
| PersistedMessage.NormalizeLegacyAssistant | crates/kallipai-adk/src/persisted_message.rs:107-127 | The in-place rewrite computes the normal form |
| PersistedMessage.FlattenLegacyToolCall | crates/kallipai-adk/src/persisted_message.rs:132-146 | The in-place rewrite of one call computes its flat form |
| SkillIndex.SelfSimilar | crates/kallip/src/skill.rs:224-261 | Under each expanded category stands exactly the one-level-shallower listing of its directory, one indent in |
| SkillIndex.DeeperOnlyAdds | crates/kallip/src/skill.rs:312-327 | On a readable disk the deeper index cut back by a level is the shallower index, order and labels included |
| SkillIndex.LabelsAgreeExactly | crates/kallip/src/skill.rs:116-141 | A category's count is the same counted or expanded if and only if every skill file in it can be read |
| SkillIndex.FooterExactly | crates/kallip/src/skill.rs:312-327 | The drill-in hint stands if and only if some category sits at the last rendered level |
| SkillOrder.SortExactly | crates/kallip/src/skill.rs:66-76 | The sorted level is the one list with no skill before a category and names without case never falling within a kind that keeps every tie in directory order, with the same entries |
| SkillIndex.NestedDeepOrdered | crates/kallip/src/skill.rs:151-201 | Every collected level is in that order, those under an expanded category included, to any depth |
| SkillIndex.TiesKeepDirectoryOrder | crates/kallip/src/skill.rs:66-76 | Entries the order does not tell apart stand as the directory gave them |
| SkillIndex.NestedLists | crates/kallip/src/skill.rs:43-62 | A listing holds an entry for every readable skill file and every sub-directory that is not skipped, with its description, and nothing else |
| SkillIndex.CountedExactly | crates/kallip/src/skill.rs:116-141 | The counts are the numbers of skill files and of sub-directories |
| SkillIndex.CollectEntries | crates/kallip/src/skill.rs:151-201 | The recursive collector returns exactly the directory's skills and sub-directories, in order at every level; only an unreadable top directory is an error |
| SkillIndex.RenderEntries | crates/kallip/src/skill.rs:224-261 | Rendering appends the entries' lines and counts the unexpanded categories |
| SkillIndex.RenderSkillIndex | crates/kallip/src/skill.rs:312-327 | The index of the clamped depth: the lines of an ordered listing, its top bullets the entries in order, with the footer rule |

## Left out

- Provider clients, streams, events, logging, persistence writes and fsync: round outcomes are
  chosen by the environment, and files are sequences of lines that parse or do not.
- WakeSafety.NoLostWakeup: stated with the inbox puller present and its pull atomic, so a task
  without one and a failing pull are not modelled. The published parked mark that a delivery reads
  lags the lifecycle; it may be read at any time here, so deferral is not tied to an actual park.
- A delivery that finds its agent's task dead and reactivates it starts another task, which this
  machine does not follow; such a delivery ends with a notify to the new task.
- WakeSafety.RetriesAreBounded: stated below the largest 32-bit setting; RetryBoundExactly gives both sides.
- WakeSafety.EveryMoveIsGood: a quota park announces no deadline, so for it only the fuse that was
  armed at the check is stated (NoEarlyTimer).
- The tokio notify is one stored permit; a waiter that is dropped hands its permit on. The order in
  which the select picks among ready arms is left to the schedule.
- A profile reset is its cell alone; the compaction state, the token budget's counter and the
  pacing table reach the loop as events of the environment.
- The debug-only check of the lifecycle table is the precondition of Settle; release builds write
  the state unchecked.
- Path canonicalisation by the operating system: a path arrives as components or as a failure.
  Components compare by code points, the same order as their UTF-8 bytes. `holder` and `holds_exact`
  are left out: single lookups.
- HistoryReader.HydrateTurns: the damaged-line count covers only the lines the scan met, as in the
  source; the contract says where it stops.
- HistoryReader.TailTurnsWithinBudget: the running sum is unbounded, so the overflow of the source's
  machine-word addition is not modelled.
- HistoryAppend.AppendLands: the append is modelled on values, one whole line at a time; a failed
  open or a partial write is the torn line of a later append.
- The one-shot fields of the approval store, its list view and the wording of its messages.
- Approval.OneLife: ids are drawn fresh, which the source takes from random UUIDs.
- Fleet.NestedExactly: restore and relocation of a deactivated agent are left out; restore replays
  creation in supervisor order from disk, and a relocated handoff child no longer has its
  supervisor's whole workspace. A reactivation reads its chain and acquires in one step here, while
  its agent is registered; in the source the registry lock is dropped between the two.
- The classifier of backend errors: a failure arrives as its class, its shape key and whether the
  answer was a 402, in any combination. The wording of reasons, the fact a failure records in the
  shared table, and the claimed window are left out.
- The shared table's reading of a profile, which this loop never passes to the verdict, and the exit it leaves.
- RetryDeadline.CutExactly: stated for an episode that starts with this call, and a clock that shows
  no more than the sleeps and calls made, rounded to whole seconds.
- RetryDeadline.SilentCheckNeverCuts: stated for an estimate that did not saturate.
- The derived serializer of the message type is not in this repository: it is modelled from what
  persisted_message.rs says of it, with messages of other roles as their fields.
- Skill names are plain characters and lower case is ASCII; the source slices file names by bytes
  and would stop on a name whose third byte from the end lies inside a character. Frontmatter
  parsing and the text of a bullet are left out.
- config.rs validation, token budgets, compaction, failover and the command-line layer: mostly
  single-branch checks or deciders outside these files.
