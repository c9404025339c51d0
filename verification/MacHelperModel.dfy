/** The macOS backend as a value: the overlay helper, the break it shows and finishes put off. */
module MacHelperModel {
  import opened Base
  import opened Schedules
  import opened RuntimeModel
  import opened ActivityModel

  /** Who locks the session: the helper itself, or a configured command. */
  datatype MacOSLock = PlatformDefault | LockCommand

  /** A finish whose time came while the session was locked. */
  datatype DeferredFinish = DeferredFinish(lockAfterBreak: bool)

  datatype ActiveOverlay = ActiveOverlay(
    deadline: BreakDeadline, lastObservedAt: nat, lockAfterBreak: bool, deferredFinish: Option<DeferredFinish>)

  datatype HelperCommand =
    | ShowBreak(scheduledBreak: ScheduledBreak)
    | UpdateBreak(remaining: nat, lockAfter: bool, message: Option<string>)
    | HideBreak(lockAfter: bool)
    | DropBreak

  datatype HelperSample = HelperSample(idleFor: nat, sessionLocked: bool, lockRequested: bool)

  /** The state, with the commands the helper was sent and how often the lock command was run. */
  datatype Core = Core(
    poller: Poller,
    active: Option<ActiveOverlay>,
    lock: MacOSLock,
    helper: seq<HelperCommand>,
    lockRuns: nat)

  /** What the outside does: does the helper acknowledge, does the lock command start, what time is it. */
  datatype Outside = Outside(acked: bool, lockStarts: bool, at: ObservedTime)

  datatype HelperInput = Told(command: Command) | Sampled(sample: Option<HelperSample>)

  /** A failed step stops the backend. */
  datatype Stepped = Stepped(after: Core, ok: bool)

  function New(interval: nat, lock: MacOSLock): Core { Core(Poller(interval, None, []), None, lock, [], 0) }

  function NewOverlay(duration: nat, lockAfter: bool, at: ObservedTime): ActiveOverlay {
    ActiveOverlay(StartingAt(at.wall, duration), at.monotonic, lockAfter, None)
  }

  function Queue(c: Core, e: RuntimeEvent): Core { c.(poller := QueueEvent(c.poller, e)) }

  function Tell(c: Core, h: HelperCommand): Core { c.(helper := c.helper + [h]) }

  /** A command the helper does not acknowledge stops the daemon. */
  function TellOrStop(c: Core, h: HelperCommand, acked: bool): Core {
    if acked then Tell(c, h) else Queue(Tell(c, h), Shutdown)
  }

  function FinishActive(c: Core, lockAfter: bool, out: Outside): Stepped {
    if c.active.None? then Stepped(c, true)
    else
      var told := Tell(c.(active := None), HideBreak(lockAfter && c.lock.PlatformDefault?));
      if !out.acked then Stepped(told, false)
      else if lockAfter && c.lock.LockCommand? then Stepped(told.(lockRuns := told.lockRuns + 1), out.lockStarts)
      else Stepped(told, true)
  }

  function StartBreak(c: Core, b: ScheduledBreak, out: Outside): Core {
    var told := TellOrStop(c, ShowBreak(b), out.acked);
    if out.acked then told.(active := Some(NewOverlay(b.duration, b.autolock, out.at))) else told
  }

  function ReplaceActiveBreak(c: Core, message: string, remaining: nat, lockAfter: bool, out: Outside): Core {
    if c.active.None? then c
    else TellOrStop(c.(active := Some(NewOverlay(remaining, lockAfter, out.at))),
                    UpdateBreak(remaining, lockAfter, Some(message)), out.acked)
  }

  function FinishBreak(c: Core, lockAfter: bool, out: Outside): Core {
    var finished := FinishActive(c, lockAfter, out);
    if finished.ok then finished.after else Queue(finished.after, Shutdown)
  }

  function RequestLock(c: Core, out: Outside): Core {
    if c.active.None? then c
    else TellOrStop(c.(active := Some(c.active.value.(lockAfterBreak := true))),
                    UpdateBreak(RemainingAt(c.active.value.deadline, out.at.wall), true, None), out.acked)
  }

  function ClearActive(c: Core, out: Outside): Core {
    var told := TellOrStop(c, DropBreak, out.acked);
    if out.acked then told.(active := None) else told
  }

  function HandleCommand(c: Core, command: Command, out: Outside): Core {
    match command
    case StartBreak(b) => StartBreak(c, b, out)
    case ReplaceActiveBreak(message, remaining, lockAfter) => ReplaceActiveBreak(c, message, remaining, lockAfter, out)
    case FinishBreak(lockAfter) => FinishBreak(c, lockAfter, out)
    case RequestLockAfterCurrentBreak => RequestLock(c, out)
    case ClearBreak => ClearActive(c, out)
  }

  /** Monotonic time since the overlay was last looked at. */
  function Elapsed(a: ActiveOverlay, at: ObservedTime): nat { SaturatingSub(at.monotonic, a.lastObservedAt) }

  /** A finish put off fires on the first unlocked sample, and locks nothing: the user just unlocked. */
  function SampleDeferred(c: Core, sample: HelperSample, out: Outside): Stepped
    requires c.active.Some?
  {
    var a := c.active.value;
    var elapsed := Elapsed(a, out.at);
    var seen := c.(active := Some(a.(lastObservedAt := out.at.monotonic)));
    if sample.sessionLocked then Stepped(Queue(seen, WallClockElapsed(elapsed)), true)
    else
      var finished := FinishActive(seen.(active := Some(seen.active.value.(deferredFinish := None))), false, out);
      if !finished.ok then finished
      else Stepped(Queue(Queue(finished.after, WallClockElapsed(elapsed)), BreakFinished), true)
  }

  function QueueOverlayEvents(c: Core, elapsed: nat, lockRequested: bool, finished: bool): Core {
    var ticked := Queue(c, WallClockElapsed(elapsed));
    var asked := if lockRequested then Queue(ticked, LockAfterBreak) else ticked;
    if finished then Queue(asked, BreakFinished) else asked
  }

  function SampleRunning(c: Core, sample: HelperSample, out: Outside): Stepped
    requires c.active.Some?
  {
    var a := c.active.value;
    var seen := a.(lastObservedAt := out.at.monotonic, lockAfterBreak := a.lockAfterBreak || sample.lockRequested);
    var over := FinishedAt(a.deadline, out.at.wall);
    var looked := c.(active := Some(seen));
    var acted :=
      if over && sample.sessionLocked then
        Stepped(looked.(active := Some(seen.(deferredFinish := Some(DeferredFinish(seen.lockAfterBreak))))), true)
      else if over then FinishActive(looked, seen.lockAfterBreak, out)
      else Stepped(Tell(looked, UpdateBreak(RemainingAt(a.deadline, out.at.wall), seen.lockAfterBreak, None)), out.acked);
    if !acted.ok then acted
    else Stepped(QueueOverlayEvents(acted.after, Elapsed(a, out.at), sample.lockRequested,
                                    over && !sample.sessionLocked), true)
  }

  function TakeSample(c: Core, sample: Option<HelperSample>, out: Outside): Stepped {
    if sample.None? then Stepped(c, false)
    else if c.active.None? then
      Stepped(c.(poller := QueueSample(c.poller, Sample(sample.value.idleFor, out.at.wall))), true)
    else if c.active.value.deferredFinish.Some? then SampleDeferred(c, sample.value, out)
    else SampleRunning(c, sample.value, out)
  }

  function Handle(c: Core, input: HelperInput, out: Outside): Stepped {
    match input
    case Told(command) => Stepped(HandleCommand(c, command, out), true)
    case Sampled(sample) => TakeSample(c, sample, out)
  }
}
