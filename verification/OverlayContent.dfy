/**
 * What the overlay says, with the daemon, the backend and the queues between them: once the commands are
 * carried out it is the message and the lock of the break the daemon shows.
 */
module OverlayContent {
  import opened Base
  import opened Schedules
  import opened RuntimeModel
  import opened RuntimeRuns
  import opened ActivityModel
  import opened MacHelperModel
  import opened ClosedLoop
  import P = Protocol
  import S = SchedulerModel

  // ----- what the daemon says of its break -----

  /** A command that begins a break says what it is, one that asks for the lock changes only that. */
  predicate Tells(before: Option<CurrentBreak>, c: Command, after: Option<CurrentBreak>) {
    match c
    case StartBreak(b) => after.Some? && after.value.message == b.message && after.value.lockAfter == b.autolock
    case ReplaceActiveBreak(message, _, lockAfter) =>
      after.Some? && after.value.message == message && after.value.lockAfter == lockAfter
    case RequestLockAfterCurrentBreak => before.Some? && after == Some(before.value.(lockAfter := true))
    case FinishBreak(_) => after.None?
    case ClearBreak => after.None?
  }

  /** And without a command the break stays exactly as it is. */
  predicate Truthful(before: Option<CurrentBreak>, step: Step, prior: seq<Command>) {
    step.running ==>
      if |step.after.commands| == |prior| then step.after.current == before
      else |step.after.commands| == |prior| + 1 && Tells(before, step.after.commands[|prior|], step.after.current)
  }

  lemma StartAtIsTruthful(r: Runtime, env: Env, b: ScheduledBreak, at: nat, propagation: Propagation)
    ensures Truthful(r.current, StartBreakAt(r, env, b, at, propagation), r.commands)
    ensures r.current.Some? ==> Truthful(r.current, ReplaceCurrentBreak(r, env, b, at), r.commands)
  {
  }

  lemma AdvanceIsTruthful(r: Runtime, env: Env, elapsed: nat, propagation: Propagation)
    requires r.Valid()
    ensures Truthful(r.current, RuntimeModel.AdvanceActive(r, env, elapsed, propagation), r.commands)
  {
    var o := S.AdvanceActive(r.scheduler, elapsed, env.pick);
    if o.started.Some? {
      StartAtIsTruthful(ClearNotice(r.(scheduler := o.after)), env, o.started.value, env.startNow, propagation);
    }
  }

  lemma ObserveIsTruthful(r: Runtime, env: Env, elapsed: nat, a: Propagation, b: Propagation)
    requires r.Valid()
    ensures Truthful(r.current, ObserveActive(r, env, elapsed, a, b), r.commands)
  {
    var tracked := BroadcastIfNeeded(ResetIdleTracking(r), a, P.ActiveTimeElapsed(elapsed));
    AdvanceIsTruthful(tracked.(activity := Spend(r.activity, elapsed)), env, Credited(r.activity, elapsed), b);
  }

  lemma ManualIsTruthful(r: Runtime, env: Env, name: string)
    requires r.Valid()
    ensures Truthful(r.current, StartManualBreak(r, env, name, Forward), r.commands)
  {
    var o := S.StartManualBreak(r.scheduler, name, env.pick);
    if o.started.Some? {
      StartAtIsTruthful(r.(scheduler := o.after), env, o.started.value, env.startNow, Forward);
    }
  }

  lemma JoinIsTruthful(r: Runtime, env: Env, start: SyncedStart)
    ensures Truthful(r.current, StartSyncedBreak(r, env, start), r.commands)
  {
    var o := S.StartActiveSyncedBreak(r.scheduler, start.name, start.origin, env.pick);
    if o.started.Some? {
      var lock := if start.lockAfter.Some? then start.lockAfter.value else o.started.value.autolock;
      StartAtIsTruthful(r.(scheduler := S.MergeSyncedPosition(o.after, start.position)), env,
                        o.started.value.(message := start.message, autolock := lock), start.startedAtMs, Suppress);
    }
  }

  lemma SyncedStartIsTruthful(r: Runtime, env: Env, peer: PeerId, start: SyncedStart)
    ensures Truthful(r.current, ApplySyncedBreakStart(r, env, peer, start), r.commands)
  {
    JoinIsTruthful(r, env, start);
    var o := S.ReplacementSyncedBreak(r.scheduler, start.name, start.origin, env.pick);
    if r.current.Some? && o.started.Some? {
      var lock := ReplacedLock(start, r.current.value, o.started.value.autolock);
      StartAtIsTruthful(r.(scheduler := S.MergeSyncedPosition(o.after, start.position)), env,
                        o.started.value.(message := start.message, autolock := lock), start.startedAtMs, Suppress);
    }
  }

  lemma ResetIsTruthful(r: Runtime, env: Env, elapsed: nat, propagation: Propagation)
    ensures Truthful(r.current, Step(ApplySchedulerReset(r, propagation), true), r.commands)
    ensures Truthful(r.current, Step(AdvanceIdle(r, elapsed), true), r.commands)
    ensures Truthful(r.current, Step(AdvanceWallClock(r, env, elapsed), true), r.commands)
  {
  }

  lemma ControlIsTruthful(r: Runtime, env: Env, duration: nat, propagation: Propagation)
    requires Joint(r)
    ensures Truthful(r.current, DisableForDuration(r, env, duration, propagation), r.commands)
    ensures Truthful(r.current, DisableUntil(r, env, propagation), r.commands)
  {
  }

  lemma EndIsTruthful(r: Runtime, env: Env, propagation: Propagation)
    ensures Truthful(r.current, RuntimeModel.RequestLock(r, env, propagation), r.commands)
    ensures Truthful(r.current, RuntimeModel.Finish(r, env), r.commands)
    ensures Truthful(r.current, Step(EnableScheduler(r, propagation), true), r.commands)
  {
  }

  lemma ClockIsTruthful(r: Runtime, env: Env, e: RuntimeEvent)
    requires r.Valid() && (e.ActiveElapsed? || e.IdleElapsed? || e.WallClockElapsed?)
    ensures Truthful(r.current, HandleEvent(r, env, e), r.commands)
  {
    match e
    case ActiveElapsed(elapsed) => ObserveIsTruthful(r, env, elapsed, Forward, Forward);
    case IdleElapsed(elapsed) => ResetIsTruthful(r, env, elapsed, Forward);
    case WallClockElapsed(elapsed) => ResetIsTruthful(r, env, elapsed, Forward);
  }

  lemma LocalIsTruthful(r: Runtime, env: Env, e: RuntimeEvent)
    requires r.Valid() && Joint(r) && e != BreakStartFailed
    ensures Truthful(r.current, HandleEvent(r, env, e), r.commands)
  {
    if e.ActiveElapsed? || e.IdleElapsed? || e.WallClockElapsed? {
      ClockIsTruthful(r, env, e);
    } else if e.StartManual? {
      ManualIsTruthful(r, env, e.name);
    } else if e.DisableBreaks? {
      ControlIsTruthful(r, env, if e.request.For? then e.request.duration else 0, Forward);
    } else {
      EndIsTruthful(r, env, Forward);
    }
  }

  lemma SyncIsTruthful(r: Runtime, env: Env, peer: PeerId, e: P.SyncEvent)
    requires r.Valid() && Joint(r)
    ensures Truthful(r.current, HandleSyncEvent(r, env, peer, e), r.commands)
  {
    match e
    case ActiveTimeElapsed(elapsed) => ObserveIsTruthful(r, env, elapsed, Suppress, Forward);
    case BreakStarted(name, message, at, origin, p) =>
      SyncedStartIsTruthful(r, env, peer, SyncedStart(name, message, at, origin, p, None));
    case SchedulerState(slot, elapsed, last, b) =>
      if b.Some? {
        SyncedStartIsTruthful(r, env, peer, SyncedStart(b.value.name, b.value.message, b.value.startedAtMs,
          b.value.origin, Position(slot, elapsed, last), Some(b.value.lockAfter)));
      }
    case SchedulerReset => ResetIsTruthful(r, env, 0, Suppress);
    case DisableFor(duration) => ControlIsTruthful(r, env, duration, Suppress);
    case DisableUntilRestart => ControlIsTruthful(r, env, 0, Suppress);
    case Enable => EndIsTruthful(r, env, Suppress);
    case LockAfterCurrentBreak => EndIsTruthful(r, env, Suppress);
  }

  /** Each input changes the break the daemon shows only by a command that says how. */
  lemma TurnIsTruthful(r: Runtime, turn: Turn)
    requires r.Valid() && Joint(r) && turn.input != Local(BreakStartFailed)
    ensures Truthful(r.current, TakeTurn(r, turn), [])
  {
    match turn.input
    case Local(e) => LocalIsTruthful(Drained(r), turn.env, e);
    case Sync(Domain(peer, e)) => SyncIsTruthful(Drained(r), turn.env, peer, e);
    case Sync(_) =>
  }

  // ----- what the overlay says -----

  datatype Face = Face(message: string, lockAfter: bool)

  /** The last message the helper was sent for what it shows. */
  function MessageOn(helper: seq<HelperCommand>): string {
    if helper == [] then ""
    else
      match helper[|helper| - 1]
      case ShowBreak(b) => b.message
      case UpdateBreak(_, _, Some(message)) => message
      case UpdateBreak(_, _, None) => MessageOn(helper[..|helper| - 1])
      case HideBreak(_) => ""
      case DropBreak => ""
  }

  function FaceOf(c: Core): Option<Face> {
    if c.active.None? then None else Some(Face(MessageOn(c.helper), c.active.value.lockAfterBreak))
  }

  function FaceWith(face: Option<Face>, c: Command): Option<Face> {
    match c
    case StartBreak(b) => Some(Face(b.message, b.autolock))
    case ReplaceActiveBreak(message, _, lockAfter) => if face.Some? then Some(Face(message, lockAfter)) else None
    case RequestLockAfterCurrentBreak => if face.Some? then Some(face.value.(lockAfter := true)) else None
    case FinishBreak(_) => None
    case ClearBreak => None
  }

  /** What the overlay will say once the commands on their way are carried out. */
  function FaceAfter(face: Option<Face>, commands: seq<Command>): Option<Face>
    decreases |commands|
  {
    if commands == [] then face else FaceAfter(FaceWith(face, commands[0]), commands[1..])
  }

  lemma {:induction false} FaceAfterAppend(face: Option<Face>, commands: seq<Command>, c: Command)
    ensures FaceAfter(face, commands + [c]) == FaceWith(FaceAfter(face, commands), c)
    decreases |commands|
  {
    if commands == [] {
      assert commands + [c] == [c] && [c][1..] == [];
    } else {
      assert (commands + [c])[0] == commands[0] && (commands + [c])[1..] == commands[1..] + [c];
      FaceAfterAppend(FaceWith(face, commands[0]), commands[1..], c);
    }
  }

  /** A lock asked for at the screen, which comes first to the backend. */
  predicate Agrees(face: Option<Face>, current: Option<CurrentBreak>, lockAsked: bool) {
    face.Some? ==>
      && current.Some? && face.value.message == current.value.message
      && (current.value.lockAfter ==> face.value.lockAfter)
      && (face.value.lockAfter ==> current.value.lockAfter || lockAsked)
  }

  predicate Faithful(l: Loop) {
    Shutdown in Events(l) ||
    Agrees(FaceAfter(FaceOf(l.core), l.commands), l.daemon.current, LockAfterBreak in Events(l))
  }

  /** A lock asked for at the screen of one overlay changes what later commands leave of it in no other way. */
  lemma {:induction false} LockCarriesOver(f: Face, commands: seq<Command>)
    ensures var before := FaceAfter(Some(f), commands);
      var after := FaceAfter(Some(f.(lockAfter := true)), commands);
      && (before.Some? <==> after.Some?)
      && (before.Some? ==> after.value.message == before.value.message
                           && (before.value.lockAfter ==> after.value.lockAfter))
    decreases |commands|
  {
    if commands != [] {
      match commands[0]
      case RequestLockAfterCurrentBreak => LockCarriesOver(f.(lockAfter := true), commands[1..]);
      case _ =>
    }
  }

  /** Once an overlay is gone, only a start among the commands brings one, whatever was there. */
  lemma {:induction false} GoneOrStarted(face: Option<Face>, commands: seq<Command>)
    ensures FaceAfter(None, commands).Some? ==> FaceAfter(face, commands) == FaceAfter(None, commands)
    decreases |commands|
  {
    if commands != [] { GoneOrStarted(FaceWith(face, commands[0]), commands[1..]); }
  }

  // ----- every step -----

  lemma TurnAgrees(l: Loop, turn: Turn, lockAsked: bool)
    requires l.daemon.Valid() && Joint(l.daemon) && turn.input != Local(BreakStartFailed)
    requires Agrees(FaceAfter(FaceOf(l.core), l.commands), l.daemon.current, lockAsked)
    requires DaemonTurn(l, turn).running
    ensures var after := DaemonTurn(l, turn).after;
      Agrees(FaceAfter(FaceOf(after.core), after.commands), after.daemon.current, lockAsked)
  {
    var step := TakeTurn(l.daemon, turn);
    TurnIsTruthful(l.daemon, turn);
    if step.after.commands == [] {
      assert l.commands + [] == l.commands;
    } else {
      assert step.after.commands == [step.after.commands[0]];
      FaceAfterAppend(FaceOf(l.core), l.commands, step.after.commands[0]);
    }
  }

  lemma LockIsHeard(r: Runtime, env: Env)
    requires r.Valid()
    ensures var step := TakeTurn(r, Turn(env, Local(LockAfterBreak)));
      step.running && step.after.current.Some? ==> step.after.current.value.lockAfter
  {
  }

  lemma HearingFaithful(l: Loop, env: Env)
    requires l.daemon.Valid() && Linked(l) && Faithful(l) && Possible(l, DaemonHears(env))
    requires Move(l, DaemonHears(env)).running
    ensures Faithful(Move(l, DaemonHears(env)).after)
  {
    var e := Events(l)[0];
    assert FromBackend(e) && Events(l) == [e] + Events(l)[1..];
    if e == Shutdown { ShutdownStops(l, env); }
    if Shutdown !in Events(l) {
      TurnAgrees(Heard(l), Turn(env, Local(e)), LockAfterBreak in Events(l));
      if e == LockAfterBreak { LockIsHeard(l.daemon, env); }
    }
  }

  lemma TellSays(helper: seq<HelperCommand>, h: HelperCommand)
    ensures MessageOn(helper + [h]) ==
      match h
      case ShowBreak(b) => b.message
      case UpdateBreak(_, _, Some(message)) => message
      case UpdateBreak(_, _, None) => MessageOn(helper)
      case HideBreak(_) => ""
      case DropBreak => ""
  {
    assert (helper + [h])[..|helper|] == helper;
  }

  lemma CommandFace(c: Core, command: Command, out: Outside)
    ensures var after := HandleCommand(c, command, out);
      Shutdown in after.poller.events || FaceOf(after) == FaceWith(FaceOf(c), command)
  {
    match command
    case StartBreak(b) => TellSays(c.helper, ShowBreak(b));
    case ReplaceActiveBreak(message, remaining, lockAfter) =>
      TellSays(c.helper, UpdateBreak(remaining, lockAfter, Some(message)));
    case RequestLockAfterCurrentBreak =>
      if c.active.Some? {
        TellSays(c.helper, UpdateBreak(RemainingAt(c.active.value.deadline, out.at.wall), true, None));
      }
    case FinishBreak(_) =>
    case ClearBreak =>
  }

  lemma ToldFaithful(l: Loop, out: Outside)
    requires l.daemon.Valid() && Faithful(l) && l.commands != []
    ensures Faithful(Move(l, BackendTold(out)).after)
  {
    var after := HandleCommand(l.core, l.commands[0], out);
    CommandKeepsShutdown(l.core, l.commands[0], out);
    if Shutdown in Events(l) {
      StillQueued(Events(l), after.poller.events, Shutdown);
    } else {
      CommandFace(l.core, l.commands[0], out);
    }
  }

  /** A sample leaves what is said, or notes a lock asked for at the screen and reports it, or takes all down. */
  predicate SampleSays(c: Core, after: Core) {
    || FaceOf(after) == FaceOf(c)
    || (FaceOf(c).Some? && FaceOf(after) == Some(FaceOf(c).value.(lockAfter := true))
        && LockAfterBreak in after.poller.events)
    || FaceOf(after).None?
  }

  lemma RunningFace(c: Core, sample: HelperSample, out: Outside)
    requires c.active.Some?
    ensures SampleRunning(c, sample, out).ok ==> SampleSays(c, SampleRunning(c, sample, out).after)
  {
    var lockAfter := c.active.value.lockAfterBreak || sample.lockRequested;
    TellSays(c.helper, UpdateBreak(RemainingAt(c.active.value.deadline, out.at.wall), lockAfter, None));
  }

  lemma SampleFace(c: Core, sample: Option<HelperSample>, out: Outside)
    requires TakeSample(c, sample, out).ok
    ensures SampleSays(c, TakeSample(c, sample, out).after)
  {
    if c.active.Some? { RunningFace(c, sample.value, out); }
  }

  lemma SampledFaithful(l: Loop, sample: Option<HelperSample>, out: Outside)
    requires l.daemon.Valid() && Faithful(l) && Move(l, BackendSamples(sample, out)).running
    ensures Faithful(Move(l, BackendSamples(sample, out)).after)
  {
    var after := TakeSample(l.core, sample, out).after;
    SampleKeepsEvents(l.core, sample, out);
    if Shutdown in Events(l) { StillQueued(Events(l), after.poller.events, Shutdown); }
    if LockAfterBreak in Events(l) { StillQueued(Events(l), after.poller.events, LockAfterBreak); }
    SampleFace(l.core, sample, out);
    GoneOrStarted(FaceOf(l.core), l.commands);
    if FaceOf(l.core).Some? { LockCarriesOver(FaceOf(l.core).value, l.commands); }
  }

  lemma MoveFaithful(l: Loop, s: LoopStep)
    requires l.daemon.Valid() && Linked(l) && Faithful(l) && Possible(l, s) && Move(l, s).running
    ensures Faithful(Move(l, s).after)
  {
    match s
    case DaemonHears(env) => HearingFaithful(l, env);
    case DaemonTold(env, input) =>
      if Shutdown !in Events(l) { TurnAgrees(l, Turn(env, input), LockAfterBreak in Events(l)); }
    case BackendTold(out) => ToldFaithful(l, out);
    case BackendSamples(sample, out) => SampledFaithful(l, sample, out);
  }

  // ----- whole runs -----

  lemma {:induction false} RunFaithful(l: Loop, steps: seq<LoopStep>)
    requires l.daemon.Valid() && Linked(l) && Faithful(l) && ClosedLoop.Run(l, steps).running
    ensures Faithful(ClosedLoop.Run(l, steps).after)
    decreases |steps|
  {
    if steps != [] && Possible(l, steps[0]) {
      MoveLinked(l, steps[0]);
      MoveFaithful(l, steps[0]);
      RunFaithful(Move(l, steps[0]).after, steps[1..]);
    }
  }

  /**
   * From start-up, over every interleaving, acknowledged or not, that leaves both running: when no command
   * is on its way and neither a lock asked for at the screen nor a stop has yet to be heard, an overlay
   * that is up carries the message of the break the daemon shows and locks exactly if that one does.
   */
  lemma OverlayIsOfCurrentBreak(
    schedule: Schedule, localPeer: Option<PeerId>, interval: nat, lock: MacOSLock, steps: seq<LoopStep>)
    requires ValidSchedule(schedule)
    requires ClosedLoop.Run(Start(schedule, localPeer, interval, lock), steps).running
    ensures var l := ClosedLoop.Run(Start(schedule, localPeer, interval, lock), steps).after;
      l.commands == [] && LockAfterBreak !in Events(l) && Shutdown !in Events(l) && l.core.active.Some? ==>
        && l.daemon.current.Some?
        && MessageOn(l.core.helper) == l.daemon.current.value.message
        && l.core.active.value.lockAfterBreak == l.daemon.current.value.lockAfter
  {
    RunFaithful(Start(schedule, localPeer, interval, lock), steps);
  }
}
