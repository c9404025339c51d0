/** The daemon runtime as a value, and what each input does to it. */
module RuntimeModel {
  import opened Base
  import opened Schedules
  import opened Protocol
  import S = SchedulerModel

  type PeerId = nat

  const DEFAULT_NOTICE_LEAD: nat := 30_000_000_000
  const FINAL_NOTICE_LEAD: nat := 5_000_000_000

  datatype DisableMode = Enabled | Timed(endsAtMs: nat) | UntilRestart

  datatype Propagation = Forward | Suppress

  /** Active time that may still be credited before the next wall-clock tick. */
  datatype CombinedActivity = CombinedActivity(budget: nat, wallClockSeen: bool)

  datatype IdleReset = IdleReset(timeout: Option<nat>, idleElapsed: nat, triggered: bool)

  datatype CurrentBreak = CurrentBreak(
    name: string, message: string, origin: Origin, lockAfter: bool, startedAtMs: nat)

  datatype Notice = Notice(name: string, slot: nat, startsAfter: nat)

  datatype Command =
    | StartBreak(scheduledBreak: ScheduledBreak)
    | ReplaceActiveBreak(message: string, remaining: nat, lockAfter: bool)
    | FinishBreak(lockAfter: bool)
    | RequestLockAfterCurrentBreak
    | ClearBreak

  datatype Outgoing = Broadcast(event: SyncEvent) | Directed(peer: PeerId, event: SyncEvent)

  datatype UiCommand =
    | ShowPreBreakNotification(name: string, startsAfter: nat)
    | ClearPreBreakNotification
    | ShowPeerRejected(peer: PeerId)

  datatype DisableRequest = For(duration: nat) | UntilRestartRequest

  datatype RuntimeEvent =
    | ActiveElapsed(elapsed: nat)
    | IdleElapsed(elapsed: nat)
    | WallClockElapsed(elapsed: nat)
    | BreakStartFailed
    | BreakFinished
    | LockAfterBreak
    | StartManual(name: string)
    | DisableBreaks(request: DisableRequest)
    | EnableBreaks
    | Shutdown

  datatype TransportEvent =
    | PeerAuthenticated(peer: PeerId)
    | Domain(peer: PeerId, event: SyncEvent)
    | PeerRejected(peer: PeerId)
    | PeerDisconnected(peer: PeerId)

  datatype Input = Local(event: RuntimeEvent) | Sync(transport: TransportEvent)

  /**
   * What the outside supplies while one input is handled: the clock readings, in milliseconds,
   * the random message choice, and whether the backend still takes commands.
   */
  datatype Env = Env(startNow: nat, laterNow: nat, pick: nat, backendUp: bool)

  /** The state, with the outputs of the input being handled. */
  datatype Runtime = Runtime(
    scheduler: S.Scheduler,
    disableMode: DisableMode,
    activity: CombinedActivity,
    activeTimeIdleReset: IdleReset,
    breakCountIdleReset: IdleReset,
    current: Option<CurrentBreak>,
    notice: Option<Notice>,
    rejectedPeers: set<PeerId>,
    localPeer: Option<PeerId>,
    commands: seq<Command>,
    sent: seq<Outgoing>,
    ui: seq<UiCommand>)
  {
    predicate Valid() { scheduler.Valid() }
  }

  /** The state after a handler, and whether the daemon goes on. */
  datatype Step = Step(after: Runtime, running: bool)

  function New(schedule: Schedule, localPeer: Option<PeerId>): (r: Runtime)
    requires ValidSchedule(schedule)
    ensures r.Valid()
  {
    Runtime(S.New(schedule), Enabled, CombinedActivity(0, false),
            IdleReset(schedule.resetAfterIdle, 0, false), IdleReset(schedule.resetCountAfterIdle, 0, false),
            None, None, {}, localPeer, [], [], [])
  }

  /** Handlers never touch the schedule or the identity, and keep the scheduler valid. */
  predicate Same(before: Runtime, after: Runtime) {
    && after.scheduler.schedule == before.scheduler.schedule
    && after.localPeer == before.localPeer
    && (before.Valid() ==> after.Valid())
  }

  // ----- outputs -----

  function Send(r: Runtime, env: Env, c: Command): (step: Step)
    ensures Same(r, step.after)
  {
    if env.backendUp then Step(r.(commands := r.commands + [c]), true) else Step(r, false)
  }

  function BroadcastIfNeeded(r: Runtime, propagation: Propagation, e: SyncEvent): (after: Runtime)
    ensures Same(r, after)
  {
    if propagation == Forward then r.(sent := r.sent + [Broadcast(e)]) else r
  }

  function ClearNotice(r: Runtime): (after: Runtime)
    ensures Same(r, after)
  {
    if r.notice.None? then r else r.(notice := None, ui := r.ui + [ClearPreBreakNotification])
  }

  // ----- activity and idle accounting -----

  function Credited(a: CombinedActivity, elapsed: nat): nat {
    if a.wallClockSeen then Min(elapsed, a.budget) else elapsed
  }

  function Spend(a: CombinedActivity, elapsed: nat): CombinedActivity {
    if a.wallClockSeen then a.(budget := a.budget - Min(elapsed, a.budget)) else a
  }

  function IdleAdvance(i: IdleReset, elapsed: nat): IdleReset {
    if i.timeout.None? || i.triggered then i
    else i.(idleElapsed := i.idleElapsed + elapsed, triggered := i.idleElapsed + elapsed >= i.timeout.value)
  }

  predicate IdleFires(i: IdleReset, elapsed: nat) {
    i.timeout.Some? && !i.triggered && i.idleElapsed + elapsed >= i.timeout.value
  }

  function IdleRestart(i: IdleReset): IdleReset { i.(idleElapsed := 0, triggered := false) }

  function ResetIdleTracking(r: Runtime): (after: Runtime)
    ensures Same(r, after)
  {
    r.(activeTimeIdleReset := IdleRestart(r.activeTimeIdleReset),
       breakCountIdleReset := IdleRestart(r.breakCountIdleReset))
  }

  function ObserveActive(
    r: Runtime, env: Env, elapsed: nat, activeTime: Propagation, breakStart: Propagation): (step: Step)
    requires r.Valid()
    ensures Same(r, step.after)
  {
    var tracked := BroadcastIfNeeded(ResetIdleTracking(r), activeTime, ActiveTimeElapsed(elapsed));
    var credited := Credited(r.activity, elapsed);
    var spent := tracked.(activity := Spend(r.activity, elapsed));
    if credited == 0 then Step(spent, true) else AdvanceActive(spent, env, credited, breakStart)
  }

  function AdvanceActive(r: Runtime, env: Env, elapsed: nat, propagation: Propagation): (step: Step)
    requires r.Valid()
    ensures Same(r, step.after)
  {
    var o := S.AdvanceActive(r.scheduler, elapsed, env.pick);
    var advanced := r.(scheduler := o.after);
    if o.started.Some? then
      StartBreakAt(ClearNotice(advanced), env, o.started.value, env.startNow, propagation)
    else
      Step(NotifyUpcomingBreak(advanced), true)
  }

  function AdvanceIdle(r: Runtime, elapsed: nat): (after: Runtime)
    ensures Same(r, after)
  {
    var resetCount := IdleFires(r.breakCountIdleReset, elapsed);
    var resetTime := IdleFires(r.activeTimeIdleReset, elapsed);
    var idled := r.(breakCountIdleReset := IdleAdvance(r.breakCountIdleReset, elapsed),
                    activeTimeIdleReset := IdleAdvance(r.activeTimeIdleReset, elapsed));
    if resetCount then ApplySchedulerReset(idled, Forward)
    else if resetTime then ClearNotice(idled.(scheduler := S.ResetActiveTime(idled.scheduler)))
    else idled
  }

  function ApplySchedulerReset(r: Runtime, propagation: Propagation): (after: Runtime)
    ensures Same(r, after)
  {
    var position := S.ResetPosition(r.scheduler);
    var reset := ClearNotice(
      r.(activeTimeIdleReset := r.activeTimeIdleReset.(triggered := true),
         breakCountIdleReset := r.breakCountIdleReset.(triggered := true),
         scheduler := position));
    if position != r.scheduler then BroadcastIfNeeded(reset, propagation, SchedulerReset) else reset
  }

  // ----- pre-break notice -----

  function NoticeLead(r: Runtime): nat { Min(DEFAULT_NOTICE_LEAD, r.scheduler.schedule.afterActive / 2) }

  function NextNotice(shown: Option<Notice>, name: string, slot: nat, startsAfter: nat): Option<nat> {
    if shown.None? || shown.value.name != name || shown.value.slot != slot then Some(startsAfter)
    else if shown.value.startsAfter <= FINAL_NOTICE_LEAD || startsAfter > FINAL_NOTICE_LEAD then None
    else Some(Min(startsAfter, FINAL_NOTICE_LEAD))
  }

  function NotifyUpcomingBreak(r: Runtime): (after: Runtime)
    requires r.Valid()
    ensures Same(r, after)
  {
    var upcoming := S.UpcomingBreak(r.scheduler);
    if upcoming.None? || upcoming.value.startsAfter > NoticeLead(r) then r
    else
      var name, slot := upcoming.value.rule.name, upcoming.value.slot;
      var next := NextNotice(r.notice, name, slot, upcoming.value.startsAfter);
      if next.None? then r
      else r.(ui := r.ui + [ShowPreBreakNotification(name, next.value)],
              notice := Some(Notice(name, slot, next.value)))
  }

  // ----- starting, replacing and ending breaks -----

  function Millis(ms: nat): nat { 1_000_000 * ms }

  /** What is left of a break that began at a given wall-clock time. */
  function Remaining(now: nat, startedAtMs: nat, duration: nat): nat {
    SaturatingSub(duration, Millis(SaturatingSub(now, startedAtMs)))
  }

  function ForBreak(b: ScheduledBreak, startedAtMs: nat): CurrentBreak {
    CurrentBreak(b.name, b.message, b.origin, b.autolock, startedAtMs)
  }

  function StartBreakAt(
    r: Runtime, env: Env, b: ScheduledBreak, startedAtMs: nat, propagation: Propagation): (step: Step)
    ensures Same(r, step.after)
  {
    var remaining := Remaining(env.laterNow, startedAtMs, b.duration);
    if remaining == 0 then Step(r.(scheduler := S.FinishBreak(r.scheduler)), true)
    else
      var shown := ClearNotice(r).(current := Some(ForBreak(b, startedAtMs)));
      var begun := Send(shown, env, StartBreak(b.(duration := remaining)));
      if !begun.running then begun
      else Step(BroadcastIfNeeded(begun.after, propagation,
                  BreakStarted(b.name, b.message, startedAtMs, b.origin, S.PositionOf(r.scheduler))), true)
  }

  function StartManualBreak(r: Runtime, env: Env, name: string, propagation: Propagation): (step: Step)
    requires r.Valid()
    ensures Same(r, step.after)
  {
    var o := S.StartManualBreak(r.scheduler, name, env.pick);
    if o.started.None? then Step(r, true)
    else StartBreakAt(r.(scheduler := o.after), env, o.started.value, env.startNow, propagation)
  }

  /** A peer's running break; `lockAfter` is known only from a snapshot. */
  datatype SyncedStart = SyncedStart(
    name: string, message: string, startedAtMs: nat, origin: Origin, position: Position, lockAfter: Option<bool>)

  function StartSyncedBreak(r: Runtime, env: Env, start: SyncedStart): (step: Step)
    ensures Same(r, step.after)
  {
    var o := S.StartActiveSyncedBreak(r.scheduler, start.name, start.origin, env.pick);
    if o.started.None? then Step(r, true)
    else
      var lock := if start.lockAfter.Some? then start.lockAfter.value else o.started.value.autolock;
      StartBreakAt(r.(scheduler := S.MergeSyncedPosition(o.after, start.position)), env,
                   o.started.value.(message := start.message, autolock := lock),
                   start.startedAtMs, Suppress)
  }

  /** Which of two breaks wins: the later slot, then the earlier start, then the lower peer id. */
  predicate SyncedBreakReplacesCurrent(
    current: CurrentBreak, local: Option<PeerId>, peer: PeerId, origin: Origin, startedAtMs: nat)
  {
    if origin.Scheduled? && current.origin.Scheduled? && origin.slot != current.origin.slot then
      origin.slot > current.origin.slot
    else if startedAtMs != current.startedAtMs then startedAtMs < current.startedAtMs
    else local.Some? && peer < local.value
  }

  function ReplaceCurrentBreak(r: Runtime, env: Env, b: ScheduledBreak, startedAtMs: nat): (step: Step)
    ensures Same(r, step.after)
  {
    var remaining := Remaining(env.laterNow, startedAtMs, b.duration);
    if remaining == 0 then
      Send(r.(current := None, scheduler := S.FinishBreak(r.scheduler)), env, ClearBreak)
    else
      Send(r.(current := Some(ForBreak(b, startedAtMs))), env,
           ReplaceActiveBreak(b.message, remaining, b.autolock))
  }

  function ReplacedLock(start: SyncedStart, current: CurrentBreak, configured: bool): bool {
    if start.lockAfter.Some? then start.lockAfter.value else current.lockAfter || configured
  }

  function ApplySyncedBreakStart(r: Runtime, env: Env, peer: PeerId, start: SyncedStart): (step: Step)
    ensures Same(r, step.after)
  {
    if start.origin == Scheduled(0) || !S.HasBreak(r.scheduler, start.name) then Step(r, true)
    else if r.current.None? then StartSyncedBreak(r, env, start)
    else if SyncedBreakReplacesCurrent(r.current.value, r.localPeer, peer, start.origin, start.startedAtMs) then
      var o := S.ReplacementSyncedBreak(r.scheduler, start.name, start.origin, env.pick);
      if o.started.None? then Step(r, true)
      else
        var lock := ReplacedLock(start, r.current.value, o.started.value.autolock);
        ReplaceCurrentBreak(r.(scheduler := S.MergeSyncedPosition(o.after, start.position)), env,
                            o.started.value.(message := start.message, autolock := lock), start.startedAtMs)
    else
      Step(r.(scheduler := S.MergeSyncedPosition(r.scheduler, start.position)), true)
  }

  function ApplySyncedSchedulerState(
    r: Runtime, env: Env, peer: PeerId, position: Position, activeBreak: Option<ActiveBreak>): (step: Step)
    ensures Same(r, step.after)
  {
    var joined :=
      if activeBreak.None? then Step(r, true)
      else
        var b := activeBreak.value;
        ApplySyncedBreakStart(r, env, peer,
          SyncedStart(b.name, b.message, b.startedAtMs, b.origin, position, Some(b.lockAfter)));
    if !joined.running then joined
    else Step(joined.after.(scheduler := S.MergeSyncedPosition(joined.after.scheduler, position)), true)
  }

  function FailStart(r: Runtime): (after: Runtime)
    ensures Same(r, after)
  {
    ClearNotice(r).(current := None, scheduler := S.FinishBreak(r.scheduler))
  }

  function Finish(r: Runtime, env: Env): (step: Step)
    ensures Same(r, step.after)
  {
    var cleared := ClearNotice(r);
    if r.current.None? then Step(cleared, true)
    else Send(cleared.(current := None, scheduler := S.FinishBreak(r.scheduler)), env,
              FinishBreak(r.current.value.lockAfter))
  }

  function RequestLock(r: Runtime, env: Env, propagation: Propagation): (step: Step)
    ensures Same(r, step.after)
  {
    if r.current.None? || r.current.value.lockAfter then Step(r, true)
    else
      var asked := Send(r.(current := Some(r.current.value.(lockAfter := true))), env, RequestLockAfterCurrentBreak);
      if !asked.running then asked
      else Step(BroadcastIfNeeded(asked.after, propagation, LockAfterCurrentBreak), true)
  }

  // ----- disabling and enabling -----

  function DisableScheduler(r: Runtime, env: Env): (step: Step)
    ensures Same(r, step.after)
  {
    var off := ClearNotice(r).(current := None, scheduler := S.Disable(r.scheduler));
    if r.scheduler.state.Pending? then Send(off, env, ClearBreak) else Step(off, true)
  }

  function DisableForDuration(r: Runtime, env: Env, duration: nat, propagation: Propagation): (step: Step)
    ensures Same(r, step.after)
  {
    var endsAtMs := env.startNow + Quotient(duration, NANOS_PER_MILLI);
    var off := DisableScheduler(r.(disableMode := Timed(endsAtMs)), env);
    if !off.running then off else Step(BroadcastIfNeeded(off.after, propagation, DisableFor(duration)), true)
  }

  function DisableUntil(r: Runtime, env: Env, propagation: Propagation): (step: Step)
    ensures Same(r, step.after)
  {
    var off := DisableScheduler(r.(disableMode := UntilRestart), env);
    if !off.running then off else Step(BroadcastIfNeeded(off.after, propagation, DisableUntilRestart), true)
  }

  function EnableScheduler(r: Runtime, propagation: Propagation): (after: Runtime)
    ensures Same(r, after)
  {
    BroadcastIfNeeded(r.(scheduler := S.Enable(r.scheduler), disableMode := Enabled), propagation, Enable)
  }

  function AdvanceWallClock(r: Runtime, env: Env, elapsed: nat): (after: Runtime)
    ensures Same(r, after)
  {
    var ticked := r.(activity := CombinedActivity(elapsed, true));
    if r.disableMode.Timed? && env.startNow >= r.disableMode.endsAtMs then EnableScheduler(ticked, Suppress)
    else ticked
  }

  // ----- inputs -----

  function SchedulerStateEvent(r: Runtime): SyncEvent {
    SchedulerState(r.scheduler.slot, r.scheduler.activeElapsed, r.scheduler.last,
      if r.current.None? then None
      else Some(ActiveBreak(r.current.value.name, r.current.value.message, r.current.value.startedAtMs,
                            r.current.value.origin, r.current.value.lockAfter)))
  }

  function NotifyPeerRejected(r: Runtime, peer: PeerId): (after: Runtime)
    ensures Same(r, after)
  {
    if peer in r.rejectedPeers then r
    else r.(rejectedPeers := r.rejectedPeers + {peer}, ui := r.ui + [ShowPeerRejected(peer)])
  }

  function HandleEvent(r: Runtime, env: Env, e: RuntimeEvent): (step: Step)
    requires r.Valid()
    ensures Same(r, step.after)
  {
    match e
    case ActiveElapsed(elapsed) => ObserveActive(r, env, elapsed, Forward, Forward)
    case IdleElapsed(elapsed) => Step(AdvanceIdle(r, elapsed), true)
    case WallClockElapsed(elapsed) => Step(AdvanceWallClock(r, env, elapsed), true)
    case BreakStartFailed => Step(FailStart(r), true)
    case BreakFinished => Finish(r, env)
    case LockAfterBreak => RequestLock(r, env, Forward)
    case StartManual(name) => StartManualBreak(r, env, name, Forward)
    case DisableBreaks(For(duration)) => DisableForDuration(r, env, duration, Forward)
    case DisableBreaks(UntilRestartRequest) => DisableUntil(r, env, Forward)
    case EnableBreaks => Step(EnableScheduler(r, Forward), true)
    case Shutdown => Step(ClearNotice(r), false)
  }

  function HandleSyncEvent(r: Runtime, env: Env, peer: PeerId, e: SyncEvent): (step: Step)
    requires r.Valid()
    ensures Same(r, step.after)
  {
    match e
    case ActiveTimeElapsed(elapsed) => ObserveActive(r, env, elapsed, Suppress, Forward)
    case BreakStarted(name, message, startedAtMs, origin, position) =>
      ApplySyncedBreakStart(r, env, peer, SyncedStart(name, message, startedAtMs, origin, position, None))
    case SchedulerState(slot, activeElapsed, last, activeBreak) =>
      ApplySyncedSchedulerState(r, env, peer, Position(slot, activeElapsed, last), activeBreak)
    case SchedulerReset => Step(ApplySchedulerReset(r, Suppress), true)
    case DisableFor(duration) => DisableForDuration(r, env, duration, Suppress)
    case DisableUntilRestart => DisableUntil(r, env, Suppress)
    case Enable => Step(EnableScheduler(r, Suppress), true)
    case LockAfterCurrentBreak => RequestLock(r, env, Suppress)
  }

  function HandleTransport(r: Runtime, env: Env, t: TransportEvent): (step: Step)
    requires r.Valid()
    ensures Same(r, step.after)
  {
    match t
    case PeerAuthenticated(peer) => Step(r.(sent := r.sent + [Directed(peer, SchedulerStateEvent(r))]), true)
    case Domain(peer, e) => HandleSyncEvent(r, env, peer, e)
    case PeerRejected(peer) => Step(NotifyPeerRejected(r, peer), true)
    case PeerDisconnected(_) => Step(r, true)
  }

  function HandleInput(r: Runtime, env: Env, input: Input): (step: Step)
    requires r.Valid()
    ensures Same(r, step.after)
  {
    match input
    case Local(e) => HandleEvent(r, env, e)
    case Sync(t) => HandleTransport(r, env, t)
  }
}
