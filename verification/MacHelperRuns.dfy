/** Over whole runs of the macOS backend: each break ends once, at its time, and a locked session waits. */
module MacHelperRuns {
  import opened Base
  import opened Schedules
  import opened RuntimeModel
  import opened ActivityModel
  import opened MacHelperModel
  import Acc = ActivityAccounting

  datatype MacStep = MacStep(input: HelperInput, out: Outside)

  function Do(c: Core, s: MacStep): Stepped { Handle(c, s.input, s.out) }

  /** Handles inputs until a step fails; nothing is taken out of the logs. */
  function Run(c: Core, steps: seq<MacStep>): Stepped
    decreases |steps|
  {
    if steps == [] then Stepped(c, true)
    else if Do(c, steps[0]).ok then Run(Do(c, steps[0]).after, steps[1..])
    else Do(c, steps[0])
  }

  // ----- at most one finish for each start -----

  function Hides(helper: seq<HelperCommand>): nat {
    if helper == [] then 0
    else Hides(helper[..|helper| - 1]) + if helper[|helper| - 1].HideBreak? then 1 else 0
  }

  function Finishes(events: seq<RuntimeEvent>): nat {
    if events == [] then 0
    else Finishes(events[..|events| - 1]) + if events[|events| - 1].BreakFinished? then 1 else 0
  }

  lemma HidesAppend(helper: seq<HelperCommand>, h: HelperCommand)
    ensures Hides(helper + [h]) == Hides(helper) + if h.HideBreak? then 1 else 0
  {
    assert (helper + [h])[..|helper|] == helper;
  }

  lemma FinishesAppend(events: seq<RuntimeEvent>, e: RuntimeEvent)
    ensures Finishes(events + [e]) == Finishes(events) + if e.BreakFinished? then 1 else 0
  {
    assert (events + [e])[..|events|] == events;
  }

  /** What is counted: breaks shown, breaks taken down by a finish, and finishes the daemon is told of. */
  datatype Count = Count(open: nat, hidden: nat, finished: nat)

  function CountOf(c: Core): Count {
    Count(if c.active.Some? then 1 else 0, Hides(c.helper), Finishes(c.poller.events))
  }

  function Started(s: MacStep): nat { if s.input.Told? && s.input.command.StartBreak? && s.out.acked then 1 else 0 }

  function StartsIn(steps: seq<MacStep>): nat { if steps == [] then 0 else Started(steps[0]) + StartsIn(steps[1..]) }

  /** Each break taken down was shown, and the daemon hears of a finish only with one that was taken down. */
  predicate Balanced(before: Count, after: Count, starts: nat) {
    && before.hidden <= after.hidden && before.finished <= after.finished
    && after.hidden - before.hidden + after.open <= before.open + starts
    && after.finished - before.finished <= after.hidden - before.hidden
  }

  lemma QueueCounts(c: Core, e: RuntimeEvent)
    ensures CountOf(Queue(c, e)) == CountOf(c).(finished := CountOf(c).finished + if e.BreakFinished? then 1 else 0)
  {
    FinishesAppend(c.poller.events, e);
  }

  lemma TellCounts(c: Core, h: HelperCommand)
    ensures CountOf(Tell(c, h)) == CountOf(c).(hidden := CountOf(c).hidden + if h.HideBreak? then 1 else 0)
  {
    HidesAppend(c.helper, h);
  }

  lemma FinishCounts(c: Core, lockAfter: bool, out: Outside)
    ensures CountOf(FinishActive(c, lockAfter, out).after)
         == Count(0, CountOf(c).hidden + CountOf(c).open, CountOf(c).finished)
  {
    if c.active.Some? { HidesAppend(c.helper, HideBreak(lockAfter && c.lock.PlatformDefault?)); }
  }

  lemma CommandBalances(c: Core, command: Command, out: Outside)
    ensures Balanced(CountOf(c), CountOf(HandleCommand(c, command, out)), Started(MacStep(Told(command), out)))
  {
    match command
    case StartBreak(b) =>
      TellCounts(c, ShowBreak(b));
      QueueCounts(Tell(c, ShowBreak(b)), Shutdown);
    case ReplaceActiveBreak(message, remaining, lockAfter) =>
      var replaced := c.(active := Some(NewOverlay(remaining, lockAfter, out.at)));
      TellCounts(replaced, UpdateBreak(remaining, lockAfter, Some(message)));
      QueueCounts(Tell(replaced, UpdateBreak(remaining, lockAfter, Some(message))), Shutdown);
    case FinishBreak(lockAfter) =>
      FinishCounts(c, lockAfter, out);
      QueueCounts(FinishActive(c, lockAfter, out).after, Shutdown);
    case RequestLockAfterCurrentBreak =>
      if c.active.Some? {
        var asked := c.(active := Some(c.active.value.(lockAfterBreak := true)));
        var update := UpdateBreak(RemainingAt(c.active.value.deadline, out.at.wall), true, None);
        TellCounts(asked, update);
        QueueCounts(Tell(asked, update), Shutdown);
      }
    case ClearBreak =>
      TellCounts(c, DropBreak);
      QueueCounts(Tell(c, DropBreak), Shutdown);
  }

  /** A finish is waiting for the user to unlock. */
  predicate Deferred(c: Core) { c.active.Some? && c.active.value.deferredFinish.Some? }

  lemma DeferredSample(c: Core, sample: HelperSample, out: Outside)
    requires Deferred(c)
    ensures var after := SampleDeferred(c, sample, out).after;
      && (Deferred(after) <==> sample.sessionLocked)
      && (!sample.sessionLocked ==> after.active.None?)
      && after.lockRuns == c.lockRuns
      && after.helper == c.helper + (if sample.sessionLocked then [] else [HideBreak(false)])
      && CountOf(after).hidden == CountOf(c).hidden + (if sample.sessionLocked then 0 else 1)
      && CountOf(after).finished == CountOf(c).finished + (if !sample.sessionLocked && out.acked then 1 else 0)
  {
    var elapsed := Elapsed(c.active.value, out.at);
    var seen := c.(active := Some(c.active.value.(lastObservedAt := out.at.monotonic)));
    QueueCounts(seen, WallClockElapsed(elapsed));
    var finishing := seen.(active := Some(seen.active.value.(deferredFinish := None)));
    FinishCounts(finishing, false, out);
    var finished := FinishActive(finishing, false, out).after;
    QueueCounts(finished, WallClockElapsed(elapsed));
    QueueCounts(Queue(finished, WallClockElapsed(elapsed)), BreakFinished);
  }

  lemma OverlayEventsCount(c: Core, elapsed: nat, lockRequested: bool, finished: bool)
    ensures CountOf(QueueOverlayEvents(c, elapsed, lockRequested, finished))
         == CountOf(c).(finished := CountOf(c).finished + if finished then 1 else 0)
  {
    var ticked := Queue(c, WallClockElapsed(elapsed));
    var asked := if lockRequested then Queue(ticked, LockAfterBreak) else ticked;
    QueueCounts(c, WallClockElapsed(elapsed));
    QueueCounts(ticked, LockAfterBreak);
    QueueCounts(asked, BreakFinished);
  }

  lemma RunningBalances(c: Core, sample: HelperSample, out: Outside)
    requires c.active.Some?
    ensures Balanced(CountOf(c), CountOf(SampleRunning(c, sample, out).after), 0)
  {
    var a := c.active.value;
    var seen := a.(lastObservedAt := out.at.monotonic, lockAfterBreak := a.lockAfterBreak || sample.lockRequested);
    var looked := c.(active := Some(seen));
    var update := UpdateBreak(RemainingAt(a.deadline, out.at.wall), seen.lockAfterBreak, None);
    var deferred := looked.(active := Some(seen.(deferredFinish := Some(DeferredFinish(seen.lockAfterBreak)))));
    var over := FinishedAt(a.deadline, out.at.wall);
    TellCounts(looked, update);
    FinishCounts(looked, seen.lockAfterBreak, out);
    var acted := if !over then Tell(looked, update)
                 else if sample.sessionLocked then deferred
                 else FinishActive(looked, seen.lockAfterBreak, out).after;
    OverlayEventsCount(acted, Elapsed(a, out.at), sample.lockRequested, over && !sample.sessionLocked);
  }

  lemma IdleSampleBalances(c: Core, s: Sample)
    ensures CountOf(c.(poller := QueueSample(c.poller, s))) == CountOf(c)
  {
    var wall := c.poller.events + [WallClockElapsed(c.poller.interval)];
    var unobserved := UnobservedIdle(c.poller, s.at);
    var gap := if unobserved.Some? then wall + [IdleElapsed(unobserved.value)] else wall;
    var last := if StateFor(s.idleFor) == Active then ActiveElapsed(c.poller.interval) else IdleElapsed(c.poller.interval);
    assert QueueSample(c.poller, s).events == gap + [last];
    FinishesAppend(c.poller.events, WallClockElapsed(c.poller.interval));
    if unobserved.Some? { FinishesAppend(wall, IdleElapsed(unobserved.value)); }
    FinishesAppend(gap, last);
  }

  lemma StepBalances(c: Core, s: MacStep)
    ensures Balanced(CountOf(c), CountOf(Do(c, s).after), Started(s))
  {
    match s.input
    case Told(command) => CommandBalances(c, command, s.out);
    case Sampled(None) =>
    case Sampled(Some(sample)) =>
      if c.active.None? {
        IdleSampleBalances(c, Sample(sample.idleFor, s.out.at.wall));
      } else if c.active.value.deferredFinish.Some? {
        DeferredSample(c, sample, s.out);
      } else {
        RunningBalances(c, sample, s.out);
      }
  }

  /**
   * Over every run, from any state and whatever the helper acknowledges: no more breaks are taken
   * down by a finish than were shown, and the daemon hears of each such finish at most once.
   */
  lemma {:induction false} FinishedOncePerStart(c: Core, steps: seq<MacStep>)
    ensures Balanced(CountOf(c), CountOf(Run(c, steps).after), StartsIn(steps))
    decreases |steps|
  {
    if steps != [] {
      StepBalances(c, steps[0]);
      FinishedOncePerStart(Do(c, steps[0]).after, steps[1..]);
    }
  }

  // ----- finishes put off -----

  predicate Unlocked(s: MacStep) { s.input.Sampled? && s.input.sample.Some? && !s.input.sample.value.sessionLocked }

  predicate Finish(s: MacStep) { s.input.Told? && s.input.command.FinishBreak? }

  /** What ends the wait: the user unlocks, or the daemon decides otherwise. */
  predicate EndsDeferral(s: MacStep) {
    || Unlocked(s) || Finish(s)
    || (s.input.Told? && s.input.command.ReplaceActiveBreak?)
    || (s.input.Told? && (s.input.command.StartBreak? || s.input.command.ClearBreak?) && s.out.acked)
  }

  /**
   * A finish put off stays so exactly until one of these, it takes the break down exactly on an
   * unlocked sample or a finish command, and on the sample it locks nothing.
   */
  lemma DeferredStep(c: Core, s: MacStep)
    requires Deferred(c)
    ensures Deferred(Do(c, s).after) <==> !EndsDeferral(s)
    ensures Hides(Do(c, s).after.helper) == Hides(c.helper) + if Unlocked(s) || Finish(s) then 1 else 0
    ensures Finishes(Do(c, s).after.poller.events)
         == Finishes(c.poller.events) + if Unlocked(s) && s.out.acked then 1 else 0
    ensures s.input.Sampled? ==>
      && Do(c, s).after.lockRuns == c.lockRuns
      && Do(c, s).after.helper == c.helper + (if Unlocked(s) then [HideBreak(false)] else [])
  {
    match s.input
    case Told(command) => DeferredCommand(c, command, s.out);
    case Sampled(None) =>
    case Sampled(Some(sample)) => DeferredSample(c, sample, s.out);
  }

  lemma DeferredCommand(c: Core, command: Command, out: Outside)
    requires Deferred(c)
    ensures var after := HandleCommand(c, command, out);
      && (Deferred(after) <==> !EndsDeferral(MacStep(Told(command), out)))
      && CountOf(after).hidden == CountOf(c).hidden + (if command.FinishBreak? then 1 else 0)
      && CountOf(after).finished == CountOf(c).finished
  {
    CommandBalances(c, command, out);
    if command.FinishBreak? {
      FinishCounts(c, command.lockAfter, out);
      QueueCounts(FinishActive(c, command.lockAfter, out).after, Shutdown);
    } else {
      CommandHidesNothing(c, command, out);
    }
  }

  lemma CommandHidesNothing(c: Core, command: Command, out: Outside)
    requires !command.FinishBreak?
    ensures CountOf(HandleCommand(c, command, out)).hidden == CountOf(c).hidden
    ensures CountOf(HandleCommand(c, command, out)).finished == CountOf(c).finished
  {
    CommandBalances(c, command, out);
  }

  predicate HidesWithoutLock(helper: seq<HelperCommand>) {
    forall i | 0 <= i < |helper| :: helper[i].HideBreak? ==> !helper[i].lockAfter
  }

  /** The break whose finish was put off is still waiting or gone, and no other one is shown. */
  predicate WaitingOrGone(c: Core) { Deferred(c) || c.active.None? }

  /**
   * A step that does not show another break and does not finish the waiting one by a command that
   * locks. Once the break is gone, finish and replace commands of any kind may follow.
   */
  predicate LeavesWaiting(c: Core, s: MacStep) {
    s.input.Told? ==>
      match s.input.command
      case StartBreak(_) => false
      case ReplaceActiveBreak(_, _, _) => c.active.None?
      case FinishBreak(lockAfter) => lockAfter ==> c.active.None?
      case _ => true
  }

  predicate AllLeaveWaiting(c: Core, steps: seq<MacStep>)
    decreases |steps|
  {
    steps == [] || (LeavesWaiting(c, steps[0]) && AllLeaveWaiting(Do(c, steps[0]).after, steps[1..]))
  }

  /** What was said to the helper and the lock command since: nothing that locks. */
  predicate LocksNothing(before: Core, after: Core) {
    && after.lockRuns == before.lockRuns && before.helper <= after.helper
    && HidesWithoutLock(after.helper[|before.helper|..])
  }

  lemma QuietStep(c: Core, s: MacStep)
    requires WaitingOrGone(c) && LeavesWaiting(c, s)
    ensures WaitingOrGone(Do(c, s).after) && LocksNothing(c, Do(c, s).after)
  {
    if Deferred(c) {
      DeferredStep(c, s);
      DeferredLeaves(c, s);
    } else if s.input.Told? && s.input.command != Command.FinishBreak(true) {
      ToldLeaves(c, s.input.command, s.out);
    }
  }

  /** One step locks a waiting break exactly when it is a finish command that says so and gets through. */
  lemma DeferredLocksIff(c: Core, s: MacStep)
    requires Deferred(c)
    ensures !LocksNothing(c, Do(c, s).after)
      <==> s.input == Told(Command.FinishBreak(true)) && (s.out.acked || c.lock.PlatformDefault?)
  {
    if s.input == Told(Command.FinishBreak(true)) {
      var after := Do(c, s).after;
      assert after.helper[|c.helper|..] == [HideBreak(c.lock.PlatformDefault?)];
      assert after.helper[|c.helper|..][0] == HideBreak(c.lock.PlatformDefault?);
    } else {
      DeferredLeaves(c, s);
    }
  }

  lemma ToldLeaves(c: Core, command: Command, out: Outside)
    requires command != Command.FinishBreak(true)
    ensures LocksNothing(c, HandleCommand(c, command, out))
  {
    var after := HandleCommand(c, command, out);
    var said := after.helper[|c.helper|..];
    assert |said| <= 1 && (said != [] && said[0].HideBreak? ==> !said[0].lockAfter);
  }

  lemma DeferredLeaves(c: Core, s: MacStep)
    requires Deferred(c) && s.input != Told(Command.FinishBreak(true))
    ensures LocksNothing(c, Do(c, s).after)
  {
    match s.input
    case Told(command) => ToldLeaves(c, command, s.out);
    case Sampled(_) => DeferredStep(c, s);
  }

  lemma LocksNothingTwice(a: Core, b: Core, c: Core)
    requires LocksNothing(a, b) && LocksNothing(b, c)
    ensures LocksNothing(a, c)
  {
    assert c.helper[|a.helper|..] == b.helper[|a.helper|..] + c.helper[|b.helper|..];
  }

  /**
   * However a run goes on after a finish was put off, until the next break it never locks: neither
   * the helper nor the lock command is asked to, not even when a lock was requested for that break
   * meanwhile and the daemon's own finish command, which then locks, comes after the break is gone.
   */
  lemma {:induction false} DeferredNeverLocks(c: Core, steps: seq<MacStep>)
    requires WaitingOrGone(c) && AllLeaveWaiting(c, steps)
    ensures WaitingOrGone(Run(c, steps).after) && LocksNothing(c, Run(c, steps).after)
    decreases |steps|
  {
    if steps == [] {
      assert c.helper[|c.helper|..] == [];
    } else {
      QuietStep(c, steps[0]);
      if Do(c, steps[0]).ok {
        var next := Do(c, steps[0]).after;
        DeferredNeverLocks(next, steps[1..]);
        LocksNothingTwice(c, next, Run(next, steps[1..]).after);
      }
    }
  }

  // ----- a break lasts as long as it should -----

  predicate Showing(c: Core, deadline: BreakDeadline) {
    c.active.Some? && c.active.value.deadline == deadline && c.active.value.deferredFinish.None?
  }

  /** Samples taken while the session answers, at times before the break is over. */
  predicate Early(steps: seq<MacStep>, deadline: BreakDeadline) {
    forall i | 0 <= i < |steps| ::
      && steps[i].input.Sampled? && steps[i].input.sample.Some? && steps[i].out.acked
      && !FinishedAt(deadline, steps[i].out.at.wall)
  }

  lemma {:induction false} EarlySamplesKeepShowing(c: Core, deadline: BreakDeadline, steps: seq<MacStep>)
    requires Showing(c, deadline) && Early(steps, deadline)
    ensures Run(c, steps).ok && Showing(Run(c, steps).after, deadline)
    ensures Run(c, steps).after.lock == c.lock && CountOf(Run(c, steps).after) == CountOf(c)
    decreases |steps|
  {
    if steps != [] {
      var s := steps[0];
      RunningSample(c, s.input.sample.value, s.out);
      EarlySamplesKeepShowing(Do(c, s).after, deadline, steps[1..]);
    }
  }

  lemma EarlyRunningSample(c: Core, sample: HelperSample, out: Outside)
    requires c.active.Some? && c.active.value.deferredFinish.None?
    requires !FinishedAt(c.active.value.deadline, out.at.wall)
    ensures var stepped := SampleRunning(c, sample, out);
      && Showing(stepped.after, c.active.value.deadline) && stepped.ok == out.acked
      && stepped.after.lock == c.lock && CountOf(stepped.after) == CountOf(c)
  {
    var a := c.active.value;
    var seen := a.(lastObservedAt := out.at.monotonic, lockAfterBreak := a.lockAfterBreak || sample.lockRequested);
    var looked := c.(active := Some(seen));
    var update := UpdateBreak(RemainingAt(a.deadline, out.at.wall), seen.lockAfterBreak, None);
    TellCounts(looked, update);
    OverlayEventsCount(Tell(looked, update), Elapsed(a, out.at), sample.lockRequested, false);
  }

  lemma LateRunningSample(c: Core, sample: HelperSample, out: Outside)
    requires c.active.Some? && FinishedAt(c.active.value.deadline, out.at.wall)
    ensures var stepped := SampleRunning(c, sample, out);
      && stepped.after.lock == c.lock
      && (sample.sessionLocked ==> Deferred(stepped.after) && CountOf(stepped.after) == CountOf(c))
      && (!sample.sessionLocked ==>
            stepped.after.active.None? && CountOf(stepped.after).hidden == CountOf(c).hidden + 1
            && (stepped.ok ==> CountOf(stepped.after).finished == CountOf(c).finished + 1))
  {
    var a := c.active.value;
    var seen := a.(lastObservedAt := out.at.monotonic, lockAfterBreak := a.lockAfterBreak || sample.lockRequested);
    var looked := c.(active := Some(seen));
    FinishCounts(looked, seen.lockAfterBreak, out);
    var acted := if !sample.sessionLocked then FinishActive(looked, seen.lockAfterBreak, out).after
                 else looked.(active := Some(seen.(deferredFinish := Some(DeferredFinish(seen.lockAfterBreak)))));
    OverlayEventsCount(acted, Elapsed(a, out.at), sample.lockRequested, !sample.sessionLocked);
  }

  /** What one sample does to a running break. */
  lemma RunningSample(c: Core, sample: HelperSample, out: Outside)
    requires c.active.Some? && c.active.value.deferredFinish.None?
    ensures var stepped := SampleRunning(c, sample, out);
      var over := FinishedAt(c.active.value.deadline, out.at.wall);
      && stepped.after.lock == c.lock
      && (!over ==> Showing(stepped.after, c.active.value.deadline) && stepped.ok == out.acked
                    && CountOf(stepped.after) == CountOf(c))
      && (over && sample.sessionLocked ==> Deferred(stepped.after) && CountOf(stepped.after) == CountOf(c))
      && (over && !sample.sessionLocked ==>
            stepped.after.active.None? && CountOf(stepped.after).hidden == CountOf(c).hidden + 1
            && (stepped.ok ==> CountOf(stepped.after).finished == CountOf(c).finished + 1))
  {
    if FinishedAt(c.active.value.deadline, out.at.wall) {
      LateRunningSample(c, sample, out);
    } else {
      EarlyRunningSample(c, sample, out);
    }
  }

  /**
   * A break that was started and acknowledged is shown through every sample before its time is up,
   * and the first one after that takes it down if the session is unlocked and puts that off if not.
   */
  lemma BreakLastsItsDuration(
    c: Core, b: ScheduledBreak, out: Outside, early: seq<MacStep>, sample: HelperSample, late: Outside)
    requires out.acked && late.acked
    requires Early(early, StartingAt(out.at.wall, b.duration))
    requires b.duration == 0 || out.at.wall + b.duration <= late.at.wall
    ensures var shown := Run(HandleCommand(c, StartBreak(b), out), early);
      var last := TakeSample(shown.after, Some(sample), late).after;
      && shown.ok && Showing(shown.after, StartingAt(out.at.wall, b.duration))
      && CountOf(shown.after) == CountOf(c).(open := 1)
      && (if sample.sessionLocked then Deferred(last) && CountOf(last) == CountOf(shown.after)
          else last.active.None? && CountOf(last).hidden == CountOf(c).hidden + 1)
  {
    var started := HandleCommand(c, StartBreak(b), out);
    TellCounts(c, ShowBreak(b));
    EarlySamplesKeepShowing(started, StartingAt(out.at.wall, b.duration), early);
    var shown := Run(started, early).after;
    Acc.DeadlineMeans(out.at.wall, b.duration, late.at.wall);
    RunningSample(shown, sample, late);
  }

  // ----- who locks, and how often -----

  /** Finishes that ask the helper to lock. */
  function LockHides(helper: seq<HelperCommand>): nat {
    if helper == [] then 0
    else LockHides(helper[..|helper| - 1])
         + if helper[|helper| - 1].HideBreak? && helper[|helper| - 1].lockAfter then 1 else 0
  }

  lemma LockHidesAppend(helper: seq<HelperCommand>, h: HelperCommand)
    ensures LockHides(helper + [h]) == LockHides(helper) + if h.HideBreak? && h.lockAfter then 1 else 0
  {
    assert (helper + [h])[..|helper|] == helper;
  }

  /** Requests to lock, of the helper and of the lock command together. */
  function LockRequests(c: Core): nat { LockHides(c.helper) + c.lockRuns }

  /** An acknowledged finish that locks asks exactly one of the two, one that does not asks neither. */
  lemma OneLocks(c: Core, lockAfter: bool, out: Outside)
    requires c.active.Some? && out.acked
    ensures var after := FinishActive(c, lockAfter, out).after;
      var helperAsked, commandRun := LockHides(after.helper) > LockHides(c.helper), after.lockRuns > c.lockRuns;
      && (lockAfter <==> helperAsked != commandRun) && !(helperAsked && commandRun)
      && LockRequests(after) == LockRequests(c) + if lockAfter then 1 else 0
  {
    LockHidesAppend(c.helper, HideBreak(lockAfter && c.lock.PlatformDefault?));
  }

  /** Each step says at most one thing to the helper, and runs the lock command only with a finish that does not lock. */
  predicate OneMessage(c: Core, after: Core) {
    && after.lock == c.lock
    && if after.helper == c.helper then after.lockRuns == c.lockRuns
       else
         && |after.helper| == |c.helper| + 1 && after.helper[..|c.helper|] == c.helper
         && match after.helper[|c.helper|]
            case HideBreak(true) => c.lock.PlatformDefault? && after.lockRuns == c.lockRuns
            case HideBreak(false) =>
              after.lockRuns == c.lockRuns || (c.lock.LockCommand? && after.lockRuns == c.lockRuns + 1)
            case _ => after.lockRuns == c.lockRuns
  }

  lemma CommandSaysOneThing(c: Core, command: Command, out: Outside)
    ensures OneMessage(c, HandleCommand(c, command, out))
  {
  }

  lemma SampleSaysOneThing(c: Core, sample: HelperSample, out: Outside)
    requires c.active.Some?
    ensures OneMessage(c, SampleDeferred(c, sample, out).after)
    ensures OneMessage(c, SampleRunning(c, sample, out).after)
  {
  }

  lemma StepSaysOneThing(c: Core, s: MacStep)
    ensures OneMessage(c, Do(c, s).after)
  {
    match s.input
    case Told(command) => CommandSaysOneThing(c, command, s.out);
    case Sampled(None) =>
    case Sampled(Some(sample)) => if c.active.Some? { SampleSaysOneThing(c, sample, s.out); }
  }

  /** Something was said and not acknowledged, or the lock command was run and did not start. */
  predicate Failed(c: Core, after: Core, out: Outside) {
    (after.helper != c.helper && !out.acked) || (after.lockRuns > c.lockRuns && !out.lockStarts)
  }

  /** A command that fails asks the daemon to stop, and no other queues anything. */
  lemma CommandStopsIff(c: Core, command: Command, out: Outside)
    ensures var after := HandleCommand(c, command, out);
      after.poller.events == c.poller.events + if Failed(c, after, out) then [Shutdown] else []
  {
  }

  /** A sample that fails, or that cannot be taken, stops the backend itself. */
  lemma SampleStopsIff(c: Core, sample: Option<HelperSample>, out: Outside)
    ensures var stepped := TakeSample(c, sample, out);
      !stepped.ok <==> sample.None? || Failed(c, stepped.after, out)
  {
    if sample.Some? && c.active.Some? { OverlaySampleStopsIff(c, sample.value, out); }
  }

  lemma OverlaySampleStopsIff(c: Core, sample: HelperSample, out: Outside)
    requires c.active.Some?
    ensures SampleDeferred(c, sample, out).ok <==> !Failed(c, SampleDeferred(c, sample, out).after, out)
    ensures SampleRunning(c, sample, out).ok <==> !Failed(c, SampleRunning(c, sample, out).after, out)
  {
  }

  /** What the helper is told to show as left. */
  function LeftOn(h: HelperCommand): Option<nat> {
    match h
    case ShowBreak(b) => Some(b.duration)
    case UpdateBreak(remaining, _, _) => Some(remaining)
    case HideBreak(_) => None
    case DropBreak => None
  }

  /** The screen is told the time left to the deadline: none after it, and at most the whole if the clock was set back. */
  predicate TellsTimeLeft(left: nat, a: ActiveOverlay, at: nat) {
    && (at <= a.deadline.endsAt && a.deadline.endsAt - at <= a.deadline.duration ==> left == a.deadline.endsAt - at)
    && (a.deadline.endsAt < at ==> left == 0)
    && (a.deadline.endsAt >= at && a.deadline.endsAt - at > a.deadline.duration ==> left == a.deadline.duration)
  }

  lemma CommandTellsTimeLeft(c: Core, command: Command, out: Outside)
    ensures var after := HandleCommand(c, command, out);
      |after.helper| == |c.helper| + 1 && after.active.Some? && (out.acked || !command.StartBreak?) ==>
        match LeftOn(after.helper[|c.helper|])
        case Some(left) => TellsTimeLeft(left, after.active.value, out.at.wall)
        case None => !out.acked
  {
  }

  /** And each sample of a running break says it again, with whether the session will be locked. */
  lemma SampleTellsTimeLeft(c: Core, sample: HelperSample, out: Outside)
    requires c.active.Some? && c.active.value.deferredFinish.None? && !FinishedAt(c.active.value.deadline, out.at.wall)
    ensures var after := SampleRunning(c, sample, out).after;
      && after.active.Some? && |after.helper| == |c.helper| + 1
      && after.helper[|c.helper|].UpdateBreak?
      && TellsTimeLeft(after.helper[|c.helper|].remaining, after.active.value, out.at.wall)
      && after.helper[|c.helper|].lockAfter == after.active.value.lockAfterBreak
      && after.active.value.lockAfterBreak == (c.active.value.lockAfterBreak || sample.lockRequested)
  {
  }

  /** How the requests grow: with breaks taken down, and only at the configured place. */
  predicate LocksWithin(c: Core, after: Core) {
    && after.lock == c.lock && c.lockRuns <= after.lockRuns && LockHides(c.helper) <= LockHides(after.helper)
    && LockRequests(after) + Hides(c.helper) <= LockRequests(c) + Hides(after.helper)
    && (c.lock.PlatformDefault? ==> after.lockRuns == c.lockRuns)
    && (c.lock.LockCommand? ==> LockHides(after.helper) == LockHides(c.helper))
  }

  lemma StepLocksWithin(c: Core, s: MacStep)
    ensures LocksWithin(c, Do(c, s).after)
  {
    var after := Do(c, s).after;
    StepSaysOneThing(c, s);
    if after.helper != c.helper {
      var h := after.helper[|c.helper|];
      assert after.helper == c.helper + [h];
      HidesAppend(c.helper, h);
      LockHidesAppend(c.helper, h);
    }
  }

  lemma {:induction false} RunLocksWithin(c: Core, steps: seq<MacStep>)
    ensures LocksWithin(c, Run(c, steps).after)
    decreases |steps|
  {
    if steps != [] {
      StepLocksWithin(c, steps[0]);
      RunLocksWithin(Do(c, steps[0]).after, steps[1..]);
    }
  }

  /**
   * Over every run from start-up: the session is locked at most once for each break shown, and only
   * by whoever is configured to lock it.
   */
  lemma LockedOncePerBreak(interval: nat, lock: MacOSLock, steps: seq<MacStep>)
    ensures var after := Run(MacHelperModel.New(interval, lock), steps).after;
      && LockRequests(after) <= StartsIn(steps)
      && (lock.PlatformDefault? ==> after.lockRuns == 0)
      && (lock.LockCommand? ==> LockHides(after.helper) == 0)
  {
    RunLocksWithin(MacHelperModel.New(interval, lock), steps);
    FinishedOncePerStart(MacHelperModel.New(interval, lock), steps);
  }

  // ----- reported time -----

  /** Successful samples at times that do not go back, none but the last of which ends the break. */
  predicate Watched(c: Core, from: nat, steps: seq<MacStep>)
    decreases |steps|
  {
    steps == [] ||
    (&& steps[0].input.Sampled? && c.active.Some? && Do(c, steps[0]).ok
     && from <= steps[0].out.at.monotonic
     && Watched(Do(c, steps[0]).after, steps[0].out.at.monotonic, steps[1..]))
  }

  function LastLook(from: nat, steps: seq<MacStep>): nat
    decreases |steps|
  {
    if steps == [] then from else LastLook(steps[0].out.at.monotonic, steps[1..])
  }

  function Wall(c: Core): nat { Acc.TimeIn(c.poller.events).wall }

  lemma QueueReports(c: Core, e: RuntimeEvent)
    ensures Wall(Queue(c, e)) == Wall(c) + if e.WallClockElapsed? then e.elapsed else 0
  {
    Acc.TimeOfAppend(c.poller.events, e);
  }

  lemma OverlayEventsReport(c: Core, elapsed: nat, lockRequested: bool, finished: bool)
    ensures Wall(QueueOverlayEvents(c, elapsed, lockRequested, finished)) == Wall(c) + elapsed
  {
    var ticked := Queue(c, WallClockElapsed(elapsed));
    var asked := if lockRequested then Queue(ticked, LockAfterBreak) else ticked;
    QueueReports(c, WallClockElapsed(elapsed));
    QueueReports(ticked, LockAfterBreak);
    QueueReports(asked, BreakFinished);
  }

  /** One look reports the time since the last one. */
  predicate Reports(c: Core, after: Core, at: ObservedTime)
    requires c.active.Some?
  {
    && Wall(after) == Wall(c) + Elapsed(c.active.value, at)
    && (after.active.Some? ==> after.active.value.lastObservedAt == at.monotonic)
  }

  lemma DeferredReports(c: Core, sample: HelperSample, out: Outside)
    requires c.active.Some? && SampleDeferred(c, sample, out).ok
    ensures Reports(c, SampleDeferred(c, sample, out).after, out.at)
  {
    var elapsed := Elapsed(c.active.value, out.at);
    var seen := c.(active := Some(c.active.value.(lastObservedAt := out.at.monotonic)));
    QueueReports(seen, WallClockElapsed(elapsed));
    var finished := FinishActive(seen.(active := Some(seen.active.value.(deferredFinish := None))), false, out).after;
    QueueReports(finished, WallClockElapsed(elapsed));
    QueueReports(Queue(finished, WallClockElapsed(elapsed)), BreakFinished);
  }

  lemma RunningReports(c: Core, sample: HelperSample, out: Outside)
    requires c.active.Some? && SampleRunning(c, sample, out).ok
    ensures Reports(c, SampleRunning(c, sample, out).after, out.at)
  {
    var a := c.active.value;
    var seen := a.(lastObservedAt := out.at.monotonic, lockAfterBreak := a.lockAfterBreak || sample.lockRequested);
    var looked := c.(active := Some(seen));
    var over := FinishedAt(a.deadline, out.at.wall);
    var acted := if !over then Tell(looked, UpdateBreak(RemainingAt(a.deadline, out.at.wall), seen.lockAfterBreak, None))
                 else if sample.sessionLocked then
                   looked.(active := Some(seen.(deferredFinish := Some(DeferredFinish(seen.lockAfterBreak)))))
                 else FinishActive(looked, seen.lockAfterBreak, out).after;
    OverlayEventsReport(acted, Elapsed(a, out.at), sample.lockRequested, over && !sample.sessionLocked);
  }

  lemma SampleReports(c: Core, s: MacStep)
    requires c.active.Some? && s.input.Sampled? && Do(c, s).ok
    ensures Reports(c, Do(c, s).after, s.out.at)
  {
    if c.active.value.deferredFinish.Some? {
      DeferredReports(c, s.input.sample.value, s.out);
    } else {
      RunningReports(c, s.input.sample.value, s.out);
    }
  }

  /** While a break is shown, the wall-clock time reported is exactly the time between first and last look. */
  lemma {:induction false} OverlayTimeTelescopes(c: Core, steps: seq<MacStep>)
    requires c.active.Some? && Watched(c, c.active.value.lastObservedAt, steps)
    ensures c.active.value.lastObservedAt <= LastLook(c.active.value.lastObservedAt, steps)
    ensures Wall(Run(c, steps).after)
         == Wall(c) + LastLook(c.active.value.lastObservedAt, steps) - c.active.value.lastObservedAt
    decreases |steps|
  {
    if steps != [] {
      SampleReports(c, steps[0]);
      if steps[1..] != [] {
        OverlayTimeTelescopes(Do(c, steps[0]).after, steps[1..]);
      }
    }
  }
}
