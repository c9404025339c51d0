/**
 * The daemon and the macOS backend together, with the two queues between them: an overlay never
 * outlives the break the daemon shows.
 */
module ClosedLoop {
  import opened Base
  import opened Schedules
  import opened RuntimeModel
  import opened RuntimeRuns
  import opened ActivityModel
  import opened MacHelperModel

  /** Commands travel one way, the events the backend has queued the other way, both in order. */
  datatype Loop = Loop(daemon: Runtime, commands: seq<Command>, core: Core)

  function Events(l: Loop): seq<RuntimeEvent> { l.core.poller.events }

  datatype LoopStep =
    | DaemonHears(env: Env)
    | DaemonTold(env: Env, input: Input)
    | BackendTold(out: Outside)
    | BackendSamples(sample: Option<HelperSample>, out: Outside)

  datatype Moved = Moved(after: Loop, running: bool)

  /** Breaks end by the backend's report only; this backend never reports a failed start. */
  predicate FromElsewhere(input: Input) { input != Local(BreakFinished) && input != Local(BreakStartFailed) }

  /** What this backend queues: time, a lock request, the end of a break, and a stop. */
  predicate FromBackend(e: RuntimeEvent) {
    || e.ActiveElapsed? || e.IdleElapsed? || e.WallClockElapsed?
    || e == LockAfterBreak || e == BreakFinished || e == Shutdown
  }

  predicate AllFromBackend(events: seq<RuntimeEvent>) { forall i | 0 <= i < |events| :: FromBackend(events[i]) }

  predicate Possible(l: Loop, s: LoopStep) {
    match s
    case DaemonHears(_) => Events(l) != []
    case DaemonTold(_, input) => FromElsewhere(input)
    case BackendTold(_) => l.commands != []
    case BackendSamples(_, _) => true
  }

  function DaemonTurn(l: Loop, turn: Turn): Moved
    requires l.daemon.Valid()
  {
    var step := TakeTurn(l.daemon, turn);
    Moved(l.(daemon := step.after, commands := l.commands + step.after.commands), step.running)
  }

  function Heard(l: Loop): Loop
    requires Events(l) != []
  {
    l.(core := l.core.(poller := l.core.poller.(events := Events(l)[1..])))
  }

  function Move(l: Loop, s: LoopStep): (m: Moved)
    requires l.daemon.Valid() && Possible(l, s)
    ensures m.after.daemon.Valid()
  {
    match s
    case DaemonHears(env) => DaemonTurn(Heard(l), Turn(env, Local(Events(l)[0])))
    case DaemonTold(env, input) => DaemonTurn(l, Turn(env, input))
    case BackendTold(out) =>
      Moved(l.(core := HandleCommand(l.core, l.commands[0], out), commands := l.commands[1..]), true)
    case BackendSamples(sample, out) =>
      var stepped := TakeSample(l.core, sample, out);
      Moved(l.(core := stepped.after), stepped.ok)
  }

  /** Any interleaving, until the daemon or the backend stops or no such step is possible. */
  function Run(l: Loop, steps: seq<LoopStep>): (m: Moved)
    requires l.daemon.Valid()
    ensures m.after.daemon.Valid()
    decreases |steps|
  {
    if steps == [] || !Possible(l, steps[0]) then Moved(l, true)
    else if !Move(l, steps[0]).running then Move(l, steps[0])
    else Run(Move(l, steps[0]).after, steps[1..])
  }

  function Start(schedule: Schedule, localPeer: Option<PeerId>, interval: nat, lock: MacOSLock): Loop
    requires ValidSchedule(schedule)
  {
    Loop(RuntimeModel.New(schedule, localPeer), [], MacHelperModel.New(interval, lock))
  }

  // ----- what is shown -----

  /** What the helper shows after the commands it was sent. */
  predicate HelperShows(helper: seq<HelperCommand>) {
    helper != [] &&
    match helper[|helper| - 1]
    case ShowBreak(_) => true
    case UpdateBreak(_, _, _) => HelperShows(helper[..|helper| - 1])
    case HideBreak(_) => false
    case DropBreak => false
  }

  /** Whether an overlay is up once the backend has carried out the commands on their way. */
  predicate UpAfter(up: bool, commands: seq<Command>)
    decreases |commands|
  {
    if commands == [] then up else UpAfter(OpenAfter(up, Sent(commands[0])), commands[1..])
  }

  lemma {:induction false} UpAfterAppend(up: bool, commands: seq<Command>, c: Command)
    ensures UpAfter(up, commands + [c]) == OpenAfter(UpAfter(up, commands), Sent(c))
    decreases |commands|
  {
    if commands == [] {
      assert commands + [c] == [c] && [c][1..] == [];
    } else {
      assert (commands + [c])[0] == commands[0] && (commands + [c])[1..] == commands[1..] + [c];
      UpAfterAppend(OpenAfter(up, Sent(commands[0])), commands[1..], c);
    }
  }

  lemma {:induction false} UpAfterMonotone(commands: seq<Command>)
    ensures UpAfter(false, commands) ==> UpAfter(true, commands)
  {
    if commands != [] { UpAfterMonotone(commands[1..]); }
  }

  predicate Up(l: Loop) { UpAfter(l.core.active.Some?, l.commands) }

  /**
   * The daemon shows a break exactly when an overlay will be up, except that a finish is on its way.
   * A shutdown on its way ends the daemon, and with it the helper.
   */
  predicate Linked(l: Loop) {
    && Joint(l.daemon) && AllFromBackend(Events(l))
    && (Shutdown in Events(l) ||
        (&& (HelperShows(l.core.helper) <==> l.core.active.Some?)
         && (Up(l) ==> l.daemon.current.Some?)
         && (l.daemon.current.Some? ==> Up(l) || BreakFinished in Events(l))))
  }

  // ----- the daemon's steps -----

  lemma DaemonTurnLinked(l: Loop, turn: Turn)
    requires l.daemon.Valid() && Linked(l) && turn.input != Local(BreakStartFailed)
    requires DaemonTurn(l, turn).running
    ensures Linked(DaemonTurn(l, turn).after)
  {
    var step := TakeTurn(l.daemon, turn);
    InputConforms(Drained(l.daemon), turn.env, turn.input);
    if step.after.commands == [] {
      assert l.commands + [] == l.commands;
    } else {
      assert step.after.commands == [step.after.commands[0]];
      UpAfterAppend(l.core.active.Some?, l.commands, step.after.commands[0]);
    }
  }

  lemma FinishedShowsNothing(r: Runtime, env: Env)
    requires r.Valid()
    ensures TakeTurn(r, Turn(env, Local(BreakFinished))).after.current.None?
  {
  }

  /** After a finish was heard no break is shown, so nothing else need be on its way. */
  lemma FinishHeardLinked(l: Loop, env: Env)
    requires l.daemon.Valid() && Linked(l) && Events(l) != [] && Events(l)[0] == BreakFinished
    requires Move(l, DaemonHears(env)).running
    ensures Linked(Move(l, DaemonHears(env)).after)
  {
    var turn := Turn(env, Local(BreakFinished));
    var step := TakeTurn(l.daemon, turn);
    TurnKeepsJoint(l.daemon, turn);
    FinishedShowsNothing(l.daemon, env);
    InputConforms(Drained(l.daemon), env, Local(BreakFinished));
    assert Events(l) == [BreakFinished] + Events(l)[1..];
    if step.after.commands == [] {
      assert l.commands + [] == l.commands;
    } else {
      assert step.after.commands == [step.after.commands[0]];
      UpAfterAppend(l.core.active.Some?, l.commands, step.after.commands[0]);
    }
  }

  lemma ShutdownStops(l: Loop, env: Env)
    requires l.daemon.Valid() && Events(l) != [] && Events(l)[0] == Shutdown
    ensures !Move(l, DaemonHears(env)).running
  {
  }

  /** Hearing anything else takes nothing away that `Linked` speaks of. */
  lemma OtherHeardLinked(l: Loop)
    requires Linked(l) && Events(l) != [] && Events(l)[0] != BreakFinished && Events(l)[0] != Shutdown
    ensures Linked(Heard(l))
  {
    assert Events(l) == [Events(l)[0]] + Events(l)[1..];
  }

  // ----- the backend's steps -----

  lemma TellShows(c: Core, h: HelperCommand)
    ensures HelperShows(Tell(c, h).helper)
         <==> h.ShowBreak? || (h.UpdateBreak? && HelperShows(c.helper))
  {
    assert (c.helper + [h])[..|c.helper|] == c.helper;
  }

  /** An acknowledged command does to the overlay what the daemon meant; any other asks to stop. */
  predicate CarriesOut(c: Core, command: Command, after: Core) {
    || Shutdown in after.poller.events
    || (&& after.poller.events == c.poller.events
        && (after.active.Some? <==> OpenAfter(c.active.Some?, Sent(command)))
        && (HelperShows(after.helper) <==> after.active.Some?))
  }

  lemma CommandCarriedOut(c: Core, command: Command, out: Outside)
    requires HelperShows(c.helper) <==> c.active.Some?
    ensures CarriesOut(c, command, HandleCommand(c, command, out))
  {
    match command
    case StartBreak(b) => TellShows(c, ShowBreak(b));
    case ReplaceActiveBreak(message, remaining, lockAfter) =>
      TellShows(c.(active := Some(NewOverlay(remaining, lockAfter, out.at))),
                UpdateBreak(remaining, lockAfter, Some(message)));
    case FinishBreak(lockAfter) =>
      TellShows(c.(active := None), HideBreak(lockAfter && c.lock.PlatformDefault?));
    case RequestLockAfterCurrentBreak =>
      if c.active.Some? {
        TellShows(c.(active := Some(c.active.value.(lockAfterBreak := true))),
                  UpdateBreak(RemainingAt(c.active.value.deadline, out.at.wall), true, None));
      }
    case ClearBreak => TellShows(c, DropBreak);
  }

  lemma CommandKeepsShutdown(c: Core, command: Command, out: Outside)
    ensures var after := HandleCommand(c, command, out).poller.events;
      after == c.poller.events || after == c.poller.events + [Shutdown]
  {
  }

  /** A sample leaves the overlay up, or takes it down and reports that. */
  predicate SampleReports(c: Core, after: Core) {
    && c.poller.events <= after.poller.events
    && (HelperShows(after.helper) <==> after.active.Some?)
    && (after.active.Some? ==> c.active.Some?)
    && (c.active.Some? && after.active.None? ==> BreakFinished in after.poller.events)
  }

  lemma DeferredReported(c: Core, sample: HelperSample, out: Outside)
    requires c.active.Some? && HelperShows(c.helper) && SampleDeferred(c, sample, out).ok
    ensures SampleReports(c, SampleDeferred(c, sample, out).after)
  {
    TellShows(c, HideBreak(false));
  }

  lemma RunningReported(c: Core, sample: HelperSample, out: Outside)
    requires c.active.Some? && HelperShows(c.helper) && SampleRunning(c, sample, out).ok
    ensures SampleReports(c, SampleRunning(c, sample, out).after)
  {
    var lockAfter := c.active.value.lockAfterBreak || sample.lockRequested;
    TellShows(c, HideBreak(lockAfter && c.lock.PlatformDefault?));
    TellShows(c, UpdateBreak(RemainingAt(c.active.value.deadline, out.at.wall), lockAfter, None));
  }

  lemma SampleReported(c: Core, sample: Option<HelperSample>, out: Outside)
    requires (HelperShows(c.helper) <==> c.active.Some?) && TakeSample(c, sample, out).ok
    ensures SampleReports(c, TakeSample(c, sample, out).after)
  {
    if c.active.Some? {
      if c.active.value.deferredFinish.Some? {
        DeferredReported(c, sample.value, out);
      } else {
        RunningReported(c, sample.value, out);
      }
    }
  }

  predicate Extends(before: seq<RuntimeEvent>, after: seq<RuntimeEvent>) {
    before <= after && (AllFromBackend(before) ==> AllFromBackend(after))
  }

  lemma QueueExtends(c: Core, e: RuntimeEvent)
    requires FromBackend(e)
    ensures Extends(c.poller.events, Queue(c, e).poller.events)
  {
  }

  lemma DeferredExtends(c: Core, sample: HelperSample, out: Outside)
    requires c.active.Some?
    ensures Extends(c.poller.events, SampleDeferred(c, sample, out).after.poller.events)
  {
    var ticked := Queue(c, WallClockElapsed(Elapsed(c.active.value, out.at)));
    QueueExtends(c, WallClockElapsed(Elapsed(c.active.value, out.at)));
    QueueExtends(ticked, BreakFinished);
  }

  lemma OverlayExtends(c: Core, elapsed: nat, lockRequested: bool, finished: bool)
    ensures Extends(c.poller.events, QueueOverlayEvents(c, elapsed, lockRequested, finished).poller.events)
  {
    var ticked := Queue(c, WallClockElapsed(elapsed));
    QueueExtends(c, WallClockElapsed(elapsed));
    QueueExtends(ticked, LockAfterBreak);
    QueueExtends(if lockRequested then Queue(ticked, LockAfterBreak) else ticked, BreakFinished);
  }

  lemma RunningExtends(c: Core, sample: HelperSample, out: Outside)
    requires c.active.Some?
    ensures Extends(c.poller.events, SampleRunning(c, sample, out).after.poller.events)
  {
    var a := c.active.value;
    var seen := a.(lastObservedAt := out.at.monotonic, lockAfterBreak := a.lockAfterBreak || sample.lockRequested);
    var over := FinishedAt(a.deadline, out.at.wall);
    var looked := c.(active := Some(seen));
    var acted :=
      if over && sample.sessionLocked then
        looked.(active := Some(seen.(deferredFinish := Some(DeferredFinish(seen.lockAfterBreak)))))
      else if over then FinishActive(looked, seen.lockAfterBreak, out).after
      else Tell(looked, UpdateBreak(RemainingAt(a.deadline, out.at.wall), seen.lockAfterBreak, None));
    OverlayExtends(acted, Elapsed(a, out.at), sample.lockRequested, over && !sample.sessionLocked);
  }

  lemma SampleKeepsEvents(c: Core, sample: Option<HelperSample>, out: Outside)
    ensures Extends(c.poller.events, TakeSample(c, sample, out).after.poller.events)
  {
    if sample.Some? && c.active.Some? {
      DeferredExtends(c, sample.value, out);
      RunningExtends(c, sample.value, out);
    }
  }

  lemma StillQueued(before: seq<RuntimeEvent>, after: seq<RuntimeEvent>, e: RuntimeEvent)
    requires before <= after && e in before
    ensures e in after
  {
    var i :| 0 <= i < |before| && before[i] == e;
    assert after[i] == e;
  }

  lemma BackendToldLinked(l: Loop, out: Outside)
    requires l.daemon.Valid() && Linked(l) && l.commands != []
    ensures Linked(Move(l, BackendTold(out)).after)
  {
    var after := HandleCommand(l.core, l.commands[0], out);
    CommandKeepsShutdown(l.core, l.commands[0], out);
    if Shutdown in Events(l) {
      StillQueued(Events(l), after.poller.events, Shutdown);
    } else {
      CommandCarriedOut(l.core, l.commands[0], out);
    }
  }

  lemma BackendSamplesLinked(l: Loop, sample: Option<HelperSample>, out: Outside)
    requires l.daemon.Valid() && Linked(l) && Move(l, BackendSamples(sample, out)).running
    ensures Linked(Move(l, BackendSamples(sample, out)).after)
  {
    var after := TakeSample(l.core, sample, out).after;
    SampleKeepsEvents(l.core, sample, out);
    if Shutdown in Events(l) {
      StillQueued(Events(l), after.poller.events, Shutdown);
    } else {
      SampleReported(l.core, sample, out);
      UpAfterMonotone(l.commands);
      if BreakFinished in Events(l) { StillQueued(Events(l), after.poller.events, BreakFinished); }
    }
  }

  // ----- whole runs -----

  lemma MoveLinked(l: Loop, s: LoopStep)
    requires l.daemon.Valid() && Linked(l) && Possible(l, s) && Move(l, s).running
    ensures Linked(Move(l, s).after)
  {
    match s
    case DaemonHears(env) =>
      if Events(l)[0] == BreakFinished {
        FinishHeardLinked(l, env);
      } else if Events(l)[0] == Shutdown {
        ShutdownStops(l, env);
      } else {
        OtherHeardLinked(l);
        DaemonTurnLinked(Heard(l), Turn(env, Local(Events(l)[0])));
      }
    case DaemonTold(env, input) => DaemonTurnLinked(l, Turn(env, input));
    case BackendTold(out) => BackendToldLinked(l, out);
    case BackendSamples(sample, out) => BackendSamplesLinked(l, sample, out);
  }

  lemma {:induction false} RunLinked(l: Loop, steps: seq<LoopStep>)
    requires l.daemon.Valid() && Linked(l) && Run(l, steps).running
    ensures Linked(Run(l, steps).after)
    decreases |steps|
  {
    if steps != [] && Possible(l, steps[0]) {
      MoveLinked(l, steps[0]);
      RunLinked(Move(l, steps[0]).after, steps[1..]);
    }
  }

  /**
   * From start-up, over every interleaving, acknowledged or not, that leaves both running: once the
   * queues are empty the helper shows an overlay exactly when the daemon shows a break, so that no
   * overlay outlives its break.
   */
  lemma OverlayMatchesBreak(
    schedule: Schedule, localPeer: Option<PeerId>, interval: nat, lock: MacOSLock, steps: seq<LoopStep>)
    requires ValidSchedule(schedule)
    requires Run(Start(schedule, localPeer, interval, lock), steps).running
    ensures var l := Run(Start(schedule, localPeer, interval, lock), steps).after;
      l.commands == [] && Events(l) == [] ==>
        (HelperShows(l.core.helper) <==> l.daemon.current.Some?)
        && (l.core.active.Some? <==> l.daemon.current.Some?)
  {
    RunLinked(Start(schedule, localPeer, interval, lock), steps);
  }
}
