/** The macOS backend object, which updates the shown break and queues events in place. */
module MacHelperObject {
  import opened Base
  import opened Schedules
  import opened RuntimeModel
  import opened ActivityModel
  import opened ActivityObject
  import opened MacHelperModel
  import H = MacHelperModel

  class MacOSHelperCore {
    const poller: ActivityPoller
    const lock: MacOSLock
    var active: Option<ActiveOverlay>
    var helper: seq<HelperCommand>
    var lockRuns: nat

    function View(): Core
      reads this, poller
    {
      Core(poller.View(), active, lock, helper, lockRuns)
    }

    constructor (interval: nat, lock: MacOSLock)
      ensures View() == H.New(interval, lock) && fresh(poller)
    {
      poller := new ActivityPoller(interval);
      this.lock := lock;
      active, helper, lockRuns := None, [], 0;
    }

    method Handle(input: HelperInput, out: Outside) returns (ok: bool)
      modifies this, poller
      ensures Stepped(View(), ok) == H.Handle(old(View()), input, out)
    {
      ok := true;
      match input
      case Told(command) => HandleCommand(command, out);
      case Sampled(sample) => ok := SampleOnce(sample, out);
    }

    method HandleCommand(command: Command, out: Outside)
      modifies this, poller
      ensures View() == H.HandleCommand(old(View()), command, out)
    {
      match command
      case StartBreak(b) => StartBreak(b, out);
      case ReplaceActiveBreak(message, remaining, lockAfter) => ReplaceActiveBreak(message, remaining, lockAfter, out);
      case FinishBreak(lockAfter) => FinishBreak(lockAfter, out);
      case RequestLockAfterCurrentBreak => RequestLockAfterCurrentBreak(out);
      case ClearBreak => ClearBreak(out);
    }

    /** Sends a command; without an acknowledgement the daemon is asked to stop. */
    method SendCommand(h: HelperCommand, acked: bool)
      modifies this`helper, poller
      ensures View() == H.TellOrStop(old(View()), h, acked)
    {
      helper := helper + [h];
      if !acked { poller.QueueEvent(Shutdown); }
    }

    method StartBreak(b: ScheduledBreak, out: Outside)
      modifies this, poller
      ensures View() == H.StartBreak(old(View()), b, out)
    {
      SendCommand(ShowBreak(b), out.acked);
      if out.acked { active := Some(NewOverlay(b.duration, b.autolock, out.at)); }
    }

    method ReplaceActiveBreak(message: string, remaining: nat, lockAfter: bool, out: Outside)
      modifies this, poller
      ensures View() == H.ReplaceActiveBreak(old(View()), message, remaining, lockAfter, out)
    {
      if active.None? { return; }
      active := Some(active.value.(deadline := StartingAt(out.at.wall, remaining), lastObservedAt := out.at.monotonic,
                                   lockAfterBreak := lockAfter, deferredFinish := None));
      SendCommand(UpdateBreak(remaining, lockAfter, Some(message)), out.acked);
    }

    method FinishActiveBreak(lockAfter: bool, out: Outside) returns (ok: bool)
      modifies this`active, this`helper, this`lockRuns
      ensures Stepped(View(), ok) == H.FinishActive(old(View()), lockAfter, out)
    {
      if active.None? { return true; }
      active := None;
      helper := helper + [HideBreak(lockAfter && lock.PlatformDefault?)];
      if !out.acked { return false; }
      if lockAfter && lock.LockCommand? {
        lockRuns := lockRuns + 1;
        return out.lockStarts;
      }
      return true;
    }

    method FinishBreak(lockAfter: bool, out: Outside)
      modifies this, poller
      ensures View() == H.FinishBreak(old(View()), lockAfter, out)
    {
      var ok := FinishActiveBreak(lockAfter, out);
      if !ok { poller.QueueEvent(Shutdown); }
    }

    method RequestLockAfterCurrentBreak(out: Outside)
      modifies this, poller
      ensures View() == H.RequestLock(old(View()), out)
    {
      if active.None? { return; }
      active := Some(active.value.(lockAfterBreak := true));
      SendCommand(UpdateBreak(RemainingAt(active.value.deadline, out.at.wall), true, None), out.acked);
    }

    method ClearBreak(out: Outside)
      modifies this, poller
      ensures View() == H.ClearActive(old(View()), out)
    {
      SendCommand(DropBreak, out.acked);
      if out.acked { active := None; }
    }

    method SampleOnce(sample: Option<HelperSample>, out: Outside) returns (ok: bool)
      modifies this, poller
      ensures Stepped(View(), ok) == H.TakeSample(old(View()), sample, out)
    {
      if sample.None? { return false; }
      if active.None? {
        var _ := poller.QueueSample(Sample(sample.value.idleFor, out.at.wall));
        return true;
      }
      if active.value.deferredFinish.Some? {
        ok := SampleDeferred(sample.value, out);
      } else {
        ok := SampleRunning(sample.value, out);
      }
    }

    /** Reports the monotonic time since the last look at the overlay. */
    method ObserveElapsed(at: ObservedTime) returns (elapsed: nat)
      requires active.Some?
      modifies this`active
      ensures elapsed == H.Elapsed(old(active.value), at)
      ensures active == Some(old(active.value).(lastObservedAt := at.monotonic))
    {
      elapsed := SaturatingSub(at.monotonic, active.value.lastObservedAt);
      active := Some(active.value.(lastObservedAt := at.monotonic));
    }

    method SampleDeferred(sample: HelperSample, out: Outside) returns (ok: bool)
      requires active.Some?
      modifies this, poller
      ensures Stepped(View(), ok) == H.SampleDeferred(old(View()), sample, out)
    {
      var elapsed := ObserveElapsed(out.at);
      if sample.sessionLocked {
        poller.QueueEvent(WallClockElapsed(elapsed));
        return true;
      }
      active := Some(active.value.(deferredFinish := None));
      ok := FinishActiveBreak(false, out);
      if !ok { return; }
      poller.QueueEvent(WallClockElapsed(elapsed));
      poller.QueueEvent(BreakFinished);
    }

    method SampleRunning(sample: HelperSample, out: Outside) returns (ok: bool)
      requires active.Some?
      modifies this, poller
      ensures Stepped(View(), ok) == H.SampleRunning(old(View()), sample, out)
    {
      if sample.lockRequested { active := Some(active.value.(lockAfterBreak := true)); }
      var elapsed := ObserveElapsed(out.at);
      var lockAfter := active.value.lockAfterBreak;
      var remaining := RemainingAt(active.value.deadline, out.at.wall);
      var over := FinishedAt(active.value.deadline, out.at.wall);
      ok := true;
      if !over {
        helper := helper + [UpdateBreak(remaining, lockAfter, None)];
        ok := out.acked;
      } else if sample.sessionLocked {
        active := Some(active.value.(deferredFinish := Some(DeferredFinish(lockAfter))));
      } else {
        ok := FinishActiveBreak(lockAfter, out);
      }
      if !ok { return; }
      poller.QueueEvent(WallClockElapsed(elapsed));
      if sample.lockRequested { poller.QueueEvent(LockAfterBreak); }
      if over && !sample.sessionLocked { poller.QueueEvent(BreakFinished); }
    }

    method NextEvent() returns (e: Option<RuntimeEvent>)
      modifies poller
      ensures old(poller.events) == (if e.Some? then [e.value] else []) + poller.events
      ensures e.None? ==> old(poller.events) == []
    {
      e := poller.NextEvent();
    }
  }
}
