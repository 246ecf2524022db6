/**
 The timers of one agent task as the loop holds them: a deadline cell and a stored permit for each
 family, and the detached sleepers as a list. A sleeper is never cancelled when its deadline is
 cleared or replaced; it only ends by itself or with the task.
 */
module Timers {
  import opened Wrappers
  import opened WakeLoop

  class TimerSet {
    var waitUntil: Option<nat>
    var retryAt: Option<nat>
    var pacingWakeAt: Option<nat>
    var waitPermit: bool
    var retryPermit: bool
    var pacingPermit: bool
    var sleepers: seq<Sleeper>

    function View(): Fuses
      reads this
    {
      Fuses(FuseCell(waitUntil, waitPermit), FuseCell(retryAt, retryPermit), FuseCell(pacingWakeAt, pacingPermit),
            multiset(sleepers))
    }

    constructor ()
      ensures View() == Fuses(FuseCell(None, false), FuseCell(None, false), FuseCell(None, false), multiset{})
    {
      waitUntil, retryAt, pacingWakeAt := None, None, None;
      waitPermit, retryPermit, pacingPermit, sleepers := false, false, false, [];
    }

    function Deadline(f: Fuse): (d: Option<nat>)
      reads this
      ensures d == View().Cell(f).armed
    {
      match f
      case WaitFuse => waitUntil
      case RetryFuse => retryAt
      case PacingFuse => pacingWakeAt
    }

    /** Whether the armed deadline has passed: a stored permit is honoured only then. */
    method Due(f: Fuse, now: nat) returns (due: bool)
      ensures due <==> View().Due(f, now)
    {
      var armed := Deadline(f);
      due := armed.Some? && armed.value <= now;
    }

    method Clear(f: Fuse)
      modifies this`waitUntil, this`retryAt, this`pacingWakeAt
      ensures View() == old(View()).Clear(f)
    {
      match f
      case WaitFuse => waitUntil := None;
      case RetryFuse => retryAt := None;
      case PacingFuse => pacingWakeAt := None;
    }

    method ClearAll()
      modifies this`waitUntil, this`retryAt, this`pacingWakeAt
      ensures View() == old(View()).ClearAll()
    {
      waitUntil, retryAt, pacingWakeAt := None, None, None;
    }

    /** Store the deadline, then spawn its sleeper; a sleeper of an earlier arming is left to run out. */
    method Arm(f: Fuse, deadline: nat)
      modifies this
      ensures View() == old(View()).Arm(f, deadline)
    {
      match f {
        case WaitFuse => waitUntil := Some(deadline);
        case RetryFuse => retryAt := Some(deadline);
        case PacingFuse => pacingWakeAt := Some(deadline);
      }
      sleepers := sleepers + [Sleeper(f, deadline)];
    }

    /** The permit of a timer, stored by a sleeper or taken by the select. */
    method SetPermit(f: Fuse, stored: bool)
      modifies this`waitPermit, this`retryPermit, this`pacingPermit
      ensures View() == old(View()).With(f, FuseCell(old(View()).Cell(f).armed, stored))
    {
      match f
      case WaitFuse => waitPermit := stored;
      case RetryFuse => retryPermit := stored;
      case PacingFuse => pacingPermit := stored;
    }

    /** One sleeper leaves the list, whichever of several alike. */
    method SleeperEnds(sl: Sleeper)
      requires sl in sleepers
      modifies this`sleepers
      ensures View() == old(View()).(sleepers := old(View()).sleepers - multiset{sl})
    {
      var i := 0;
      while sleepers[i] != sl
        invariant 0 <= i < |sleepers| && sl in sleepers[i..]
        decreases |sleepers| - i
      {
        i := i + 1;
      }
      assert sleepers == sleepers[..i] + [sl] + sleepers[i + 1..];
      sleepers := sleepers[..i] + sleepers[i + 1..];
    }
  }
}
