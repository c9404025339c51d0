/** The daemon object: each handler changes the fields and sends the outputs `RuntimeModel` says. */
module RuntimeObject {
  import opened Base
  import opened Schedules
  import opened Protocol
  import opened SchedulerObject
  import S = SchedulerModel
  import M = RuntimeModel

  class DaemonRuntime {
    const scheduler: BreakScheduler
    const localPeer: Option<M.PeerId>
    var disableMode: M.DisableMode
    var activity: M.CombinedActivity
    var activeTimeIdleReset: M.IdleReset
    var breakCountIdleReset: M.IdleReset
    var current: Option<M.CurrentBreak>
    var notice: Option<M.Notice>
    var rejectedPeers: set<M.PeerId>

    // The three channels the daemon writes to.
    var commands: seq<M.Command>
    var sent: seq<M.Outgoing>
    var ui: seq<M.UiCommand>

    function View(): M.Runtime
      reads this, scheduler
    {
      M.Runtime(scheduler.View(), disableMode, activity, activeTimeIdleReset, breakCountIdleReset, current,
                notice, rejectedPeers, localPeer, commands, sent, ui)
    }

    predicate Valid()
      reads this, scheduler
    {
      scheduler.Valid()
    }

    constructor (schedule: Schedule, localPeer: Option<M.PeerId>)
      requires ValidSchedule(schedule)
      ensures Valid() && View() == M.New(schedule, localPeer)
    {
      scheduler := new BreakScheduler(schedule);
      this.localPeer := localPeer;
      disableMode := M.Enabled;
      activity := M.CombinedActivity(0, false);
      activeTimeIdleReset := M.IdleReset(schedule.resetAfterIdle, 0, false);
      breakCountIdleReset := M.IdleReset(schedule.resetCountAfterIdle, 0, false);
      current := None;
      notice := None;
      rejectedPeers := {};
      commands, sent, ui := [], [], [];
    }

    method HandleInput(env: M.Env, input: M.Input) returns (running: bool)
      requires Valid()
      modifies this, scheduler
      ensures M.Step(View(), running) == M.HandleInput(old(View()), env, input)
      ensures Valid()
    {
      match input
      case Local(e) => running := HandleEvent(env, e);
      case Sync(t) => running := HandleTransport(env, t);
    }

    method HandleEvent(env: M.Env, e: M.RuntimeEvent) returns (running: bool)
      requires Valid()
      modifies this, scheduler
      ensures M.Step(View(), running) == M.HandleEvent(old(View()), env, e)
      ensures Valid()
    {
      running := true;
      match e
      case ActiveElapsed(elapsed) => running := ObserveActive(env, elapsed, M.Forward, M.Forward);
      case IdleElapsed(elapsed) => AdvanceIdle(elapsed);
      case WallClockElapsed(elapsed) => AdvanceWallClock(env, elapsed);
      case BreakStartFailed => FailStart();
      case BreakFinished => running := FinishBreak(env);
      case LockAfterBreak => running := RequestLock(env, M.Forward);
      case StartManual(name) => running := StartManualBreak(env, name, M.Forward);
      case DisableBreaks(For(duration)) => running := DisableForDuration(env, duration, M.Forward);
      case DisableBreaks(UntilRestartRequest) => running := DisableUntilRestart(env, M.Forward);
      case EnableBreaks => EnableBreaks(M.Forward);
      case Shutdown => ClearNotice(); running := false;
    }

    method HandleTransport(env: M.Env, t: M.TransportEvent) returns (running: bool)
      requires Valid()
      modifies this, scheduler
      ensures M.Step(View(), running) == M.HandleTransport(old(View()), env, t)
      ensures Valid()
    {
      running := true;
      match t
      case PeerAuthenticated(peer) => sent := sent + [M.Directed(peer, M.SchedulerStateEvent(View()))];
      case Domain(peer, e) => running := HandleSyncEvent(env, peer, e);
      case PeerRejected(peer) => NotifyPeerRejected(peer);
      case PeerDisconnected(_) =>
    }

    method HandleSyncEvent(env: M.Env, peer: M.PeerId, e: SyncEvent) returns (running: bool)
      requires Valid()
      modifies this, scheduler
      ensures M.Step(View(), running) == M.HandleSyncEvent(old(View()), env, peer, e)
      ensures Valid()
    {
      running := true;
      match e
      case ActiveTimeElapsed(elapsed) => running := ObserveActive(env, elapsed, M.Suppress, M.Forward);
      case BreakStarted(name, message, startedAtMs, origin, position) =>
        running := ApplySyncedBreakStart(env, peer,
          M.SyncedStart(name, message, startedAtMs, origin, position, None));
      case SchedulerState(slot, activeElapsed, last, activeBreak) =>
        running := ApplySyncedSchedulerState(env, peer, Position(slot, activeElapsed, last), activeBreak);
      case SchedulerReset => ApplySchedulerReset(M.Suppress);
      case DisableFor(duration) => running := DisableForDuration(env, duration, M.Suppress);
      case DisableUntilRestart => running := DisableUntilRestart(env, M.Suppress);
      case Enable => EnableBreaks(M.Suppress);
      case LockAfterCurrentBreak => running := RequestLock(env, M.Suppress);
    }

    method SendCommand(env: M.Env, c: M.Command) returns (running: bool)
      modifies this`commands
      ensures M.Step(View(), running) == M.Send(old(View()), env, c)
    {
      if env.backendUp { commands := commands + [c]; }
      return env.backendUp;
    }

    method BroadcastIfNeeded(propagation: M.Propagation, e: SyncEvent)
      modifies this`sent
      ensures View() == M.BroadcastIfNeeded(old(View()), propagation, e)
    {
      if propagation == M.Forward { sent := sent + [M.Broadcast(e)]; }
    }

    method ClearNotice()
      modifies this`notice, this`ui
      ensures View() == M.ClearNotice(old(View()))
    {
      if notice.None? { return; }
      notice := None;
      ui := ui + [M.ClearPreBreakNotification];
    }

    method ObserveActive(env: M.Env, elapsed: nat, activeTime: M.Propagation, breakStart: M.Propagation)
      returns (running: bool)
      requires Valid()
      modifies this, scheduler
      ensures M.Step(View(), running) == M.ObserveActive(old(View()), env, elapsed, activeTime, breakStart)
      ensures Valid()
    {
      activeTimeIdleReset := M.IdleRestart(activeTimeIdleReset);
      breakCountIdleReset := M.IdleRestart(breakCountIdleReset);
      BroadcastIfNeeded(activeTime, ActiveTimeElapsed(elapsed));
      var credited := elapsed;
      if activity.wallClockSeen {
        credited := Min(elapsed, activity.budget);
        activity := activity.(budget := activity.budget - credited);
      }
      if credited == 0 { return true; }
      running := AdvanceActive(env, credited, breakStart);
    }

    method AdvanceActive(env: M.Env, elapsed: nat, propagation: M.Propagation) returns (running: bool)
      requires Valid()
      modifies this, scheduler
      ensures M.Step(View(), running) == M.AdvanceActive(old(View()), env, elapsed, propagation)
      ensures Valid()
    {
      var started := scheduler.AdvanceActive(elapsed, env.pick);
      if started.Some? {
        ClearNotice();
        running := StartBreakAt(env, started.value, env.startNow, propagation);
      } else {
        NotifyUpcomingBreak();
        running := true;
      }
    }

    method AdvanceIdle(elapsed: nat)
      requires Valid()
      modifies this, scheduler
      ensures View() == M.AdvanceIdle(old(View()), elapsed)
      ensures Valid()
    {
      var resetCount := M.IdleFires(breakCountIdleReset, elapsed);
      breakCountIdleReset := M.IdleAdvance(breakCountIdleReset, elapsed);
      var resetTime := M.IdleFires(activeTimeIdleReset, elapsed);
      activeTimeIdleReset := M.IdleAdvance(activeTimeIdleReset, elapsed);
      if resetCount {
        ApplySchedulerReset(M.Forward);
      } else if resetTime {
        scheduler.ResetActiveTime();
        ClearNotice();
      }
    }

    method ApplySchedulerReset(propagation: M.Propagation)
      requires Valid()
      modifies this, scheduler
      ensures View() == M.ApplySchedulerReset(old(View()), propagation)
      ensures Valid()
    {
      activeTimeIdleReset := activeTimeIdleReset.(triggered := true);
      breakCountIdleReset := breakCountIdleReset.(triggered := true);
      var changed := scheduler.ResetPosition();
      ClearNotice();
      if changed { BroadcastIfNeeded(propagation, SchedulerReset); }
    }

    method NotifyUpcomingBreak()
      requires Valid()
      modifies this`notice, this`ui
      ensures View() == M.NotifyUpcomingBreak(old(View()))
    {
      var upcoming := scheduler.UpcomingScheduledBreak();
      if upcoming.None? || upcoming.value.startsAfter > M.NoticeLead(View()) { return; }
      var name, slot := upcoming.value.rule.name, upcoming.value.slot;
      var next := M.NextNotice(notice, name, slot, upcoming.value.startsAfter);
      if next.None? { return; }
      ui := ui + [M.ShowPreBreakNotification(name, next.value)];
      notice := Some(M.Notice(name, slot, next.value));
    }

    method StartBreakAt(env: M.Env, b: ScheduledBreak, startedAtMs: nat, propagation: M.Propagation)
      returns (running: bool)
      requires Valid()
      modifies this, scheduler
      ensures M.Step(View(), running) == M.StartBreakAt(old(View()), env, b, startedAtMs, propagation)
      ensures Valid()
    {
      var remaining := M.Remaining(env.laterNow, startedAtMs, b.duration);
      if remaining == 0 {
        var _ := scheduler.FinishBreak();
        return true;
      }
      var position := S.PositionOf(scheduler.View());
      ClearNotice();
      current := Some(M.ForBreak(b, startedAtMs));
      running := SendCommand(env, M.StartBreak(b.(duration := remaining)));
      if running {
        BroadcastIfNeeded(propagation, BreakStarted(b.name, b.message, startedAtMs, b.origin, position));
      }
    }

    method StartManualBreak(env: M.Env, name: string, propagation: M.Propagation) returns (running: bool)
      requires Valid()
      modifies this, scheduler
      ensures M.Step(View(), running) == M.StartManualBreak(old(View()), env, name, propagation)
      ensures Valid()
    {
      var started := scheduler.StartManualBreak(name, env.pick);
      if started.None? { return true; }
      running := StartBreakAt(env, started.value, env.startNow, propagation);
    }

    method StartSyncedBreak(env: M.Env, start: M.SyncedStart) returns (running: bool)
      requires Valid()
      modifies this, scheduler
      ensures M.Step(View(), running) == M.StartSyncedBreak(old(View()), env, start)
      ensures Valid()
    {
      var started := scheduler.StartActiveSyncedBreak(start.name, start.origin, env.pick);
      if started.None? { return true; }
      var _ := scheduler.MergeSyncedPosition(start.position);
      var b := started.value.(message := start.message);
      if start.lockAfter.Some? { b := b.(autolock := start.lockAfter.value); }
      running := StartBreakAt(env, b, start.startedAtMs, M.Suppress);
    }

    method ApplySyncedBreakStart(env: M.Env, peer: M.PeerId, start: M.SyncedStart) returns (running: bool)
      requires Valid()
      modifies this, scheduler
      ensures M.Step(View(), running) == M.ApplySyncedBreakStart(old(View()), env, peer, start)
      ensures Valid()
    {
      if start.origin == Scheduled(0) { return true; }
      if !S.HasBreak(scheduler.View(), start.name) { return true; }
      if current.None? {
        running := StartSyncedBreak(env, start);
        return;
      }
      var shown := current.value;
      if M.SyncedBreakReplacesCurrent(shown, localPeer, peer, start.origin, start.startedAtMs) {
        var started := scheduler.ReplacementSyncedBreak(start.name, start.origin, env.pick);
        if started.None? { return true; }
        var b := started.value.(message := start.message);
        if start.lockAfter.Some? {
          b := b.(autolock := start.lockAfter.value);
        } else if shown.lockAfter {
          b := b.(autolock := true);
        }
        var _ := scheduler.MergeSyncedPosition(start.position);
        running := ReplaceCurrentBreak(env, b, start.startedAtMs);
      } else {
        var _ := scheduler.MergeSyncedPosition(start.position);
        return true;
      }
    }

    method ReplaceCurrentBreak(env: M.Env, b: ScheduledBreak, startedAtMs: nat) returns (running: bool)
      requires Valid()
      modifies this, scheduler
      ensures M.Step(View(), running) == M.ReplaceCurrentBreak(old(View()), env, b, startedAtMs)
      ensures Valid()
    {
      var remaining := M.Remaining(env.laterNow, startedAtMs, b.duration);
      if remaining == 0 {
        current := None;
        var _ := scheduler.FinishBreak();
        running := SendCommand(env, M.ClearBreak);
        return;
      }
      current := Some(M.ForBreak(b, startedAtMs));
      running := SendCommand(env, M.ReplaceActiveBreak(b.message, remaining, b.autolock));
    }

    method ApplySyncedSchedulerState(
      env: M.Env, peer: M.PeerId, position: Position, activeBreak: Option<ActiveBreak>) returns (running: bool)
      requires Valid()
      modifies this, scheduler
      ensures M.Step(View(), running) == M.ApplySyncedSchedulerState(old(View()), env, peer, position, activeBreak)
      ensures Valid()
    {
      if activeBreak.Some? {
        var b := activeBreak.value;
        running := ApplySyncedBreakStart(env, peer,
          M.SyncedStart(b.name, b.message, b.startedAtMs, b.origin, position, Some(b.lockAfter)));
        if !running { return; }
      }
      var _ := scheduler.MergeSyncedPosition(position);
      return true;
    }

    method FailStart()
      requires Valid()
      modifies this, scheduler
      ensures View() == M.FailStart(old(View()))
      ensures Valid()
    {
      ClearNotice();
      current := None;
      var _ := scheduler.FinishBreak();
    }

    method FinishBreak(env: M.Env) returns (running: bool)
      requires Valid()
      modifies this, scheduler
      ensures M.Step(View(), running) == M.Finish(old(View()), env)
      ensures Valid()
    {
      ClearNotice();
      if current.None? { return true; }
      var shouldLock := current.value.lockAfter;
      current := None;
      var _ := scheduler.FinishBreak();
      running := SendCommand(env, M.FinishBreak(shouldLock));
    }

    method RequestLock(env: M.Env, propagation: M.Propagation) returns (running: bool)
      requires Valid()
      modifies this, scheduler
      ensures M.Step(View(), running) == M.RequestLock(old(View()), env, propagation)
      ensures Valid()
    {
      if current.None? || current.value.lockAfter { return true; }
      current := Some(current.value.(lockAfter := true));
      running := SendCommand(env, M.RequestLockAfterCurrentBreak);
      if running { BroadcastIfNeeded(propagation, LockAfterCurrentBreak); }
    }

    method AdvanceWallClock(env: M.Env, elapsed: nat)
      requires Valid()
      modifies this, scheduler
      ensures View() == M.AdvanceWallClock(old(View()), env, elapsed)
      ensures Valid()
    {
      activity := M.CombinedActivity(elapsed, true);
      if disableMode.Timed? && env.startNow >= disableMode.endsAtMs {
        EnableBreaks(M.Suppress);
      }
    }

    method DisableForDuration(env: M.Env, duration: nat, propagation: M.Propagation) returns (running: bool)
      requires Valid()
      modifies this, scheduler
      ensures M.Step(View(), running) == M.DisableForDuration(old(View()), env, duration, propagation)
      ensures Valid()
    {
      disableMode := M.Timed(env.startNow + Quotient(duration, NANOS_PER_MILLI));
      running := DisableScheduler(env);
      if running { BroadcastIfNeeded(propagation, DisableFor(duration)); }
    }

    method DisableUntilRestart(env: M.Env, propagation: M.Propagation) returns (running: bool)
      requires Valid()
      modifies this, scheduler
      ensures M.Step(View(), running) == M.DisableUntil(old(View()), env, propagation)
      ensures Valid()
    {
      disableMode := M.UntilRestart;
      running := DisableScheduler(env);
      if running { BroadcastIfNeeded(propagation, SyncEvent.DisableUntilRestart); }
    }

    method EnableBreaks(propagation: M.Propagation)
      requires Valid()
      modifies this, scheduler
      ensures View() == M.EnableScheduler(old(View()), propagation)
      ensures Valid()
    {
      scheduler.Enable();
      disableMode := M.Enabled;
      BroadcastIfNeeded(propagation, SyncEvent.Enable);
    }

    method DisableScheduler(env: M.Env) returns (running: bool)
      requires Valid()
      modifies this, scheduler
      ensures M.Step(View(), running) == M.DisableScheduler(old(View()), env)
      ensures Valid()
    {
      current := None;
      ClearNotice();
      var wasPending := scheduler.Disable();
      running := true;
      if wasPending { running := SendCommand(env, M.ClearBreak); }
    }

    method NotifyPeerRejected(peer: M.PeerId)
      modifies this`rejectedPeers, this`ui
      ensures View() == M.NotifyPeerRejected(old(View()), peer)
    {
      if peer in rejectedPeers { return; }
      rejectedPeers := rejectedPeers + {peer};
      ui := ui + [M.ShowPeerRejected(peer)];
    }
  }
}
