/**
 * A break that is over in a locked session, with the daemon, the backend and the queues between them:
 * exactly when it can still lock the session.
 */
module LockedFinish {
  import opened Base
  import opened Schedules
  import opened RuntimeModel
  import opened RuntimeRuns
  import opened ActivityModel
  import opened MacHelperModel
  import opened MacHelperRuns
  import opened ClosedLoop
  import P = Protocol
  import S = SchedulerModel

  // ----- who sends a finish -----

  predicate NoFinish(commands: seq<Command>) { forall i | 0 <= i < |commands| :: !commands[i].FinishBreak? }

  lemma StartAtSendsNoFinish(r: Runtime, env: Env, b: ScheduledBreak, at: nat, propagation: Propagation)
    requires NoFinish(r.commands)
    ensures NoFinish(StartBreakAt(r, env, b, at, propagation).after.commands)
    ensures NoFinish(ReplaceCurrentBreak(r, env, b, at).after.commands)
  {
  }

  lemma AdvanceSendsNoFinish(r: Runtime, env: Env, elapsed: nat, propagation: Propagation)
    requires r.Valid() && NoFinish(r.commands)
    ensures NoFinish(RuntimeModel.AdvanceActive(r, env, elapsed, propagation).after.commands)
  {
    var o := S.AdvanceActive(r.scheduler, elapsed, env.pick);
    if o.started.Some? {
      StartAtSendsNoFinish(ClearNotice(r.(scheduler := o.after)), env, o.started.value, env.startNow, propagation);
    }
  }

  lemma ObserveSendsNoFinish(r: Runtime, env: Env, elapsed: nat, a: Propagation, b: Propagation)
    requires r.Valid() && NoFinish(r.commands)
    ensures NoFinish(ObserveActive(r, env, elapsed, a, b).after.commands)
  {
    var tracked := BroadcastIfNeeded(ResetIdleTracking(r), a, P.ActiveTimeElapsed(elapsed));
    AdvanceSendsNoFinish(tracked.(activity := Spend(r.activity, elapsed)), env, Credited(r.activity, elapsed), b);
  }

  lemma ManualSendsNoFinish(r: Runtime, env: Env, name: string)
    requires r.Valid() && NoFinish(r.commands)
    ensures NoFinish(StartManualBreak(r, env, name, Forward).after.commands)
  {
    var o := S.StartManualBreak(r.scheduler, name, env.pick);
    if o.started.Some? {
      StartAtSendsNoFinish(r.(scheduler := o.after), env, o.started.value, env.startNow, Forward);
    }
  }

  lemma JoinSendsNoFinish(r: Runtime, env: Env, start: SyncedStart)
    requires NoFinish(r.commands)
    ensures NoFinish(StartSyncedBreak(r, env, start).after.commands)
  {
    var o := S.StartActiveSyncedBreak(r.scheduler, start.name, start.origin, env.pick);
    if o.started.Some? {
      var lock := if start.lockAfter.Some? then start.lockAfter.value else o.started.value.autolock;
      StartAtSendsNoFinish(r.(scheduler := S.MergeSyncedPosition(o.after, start.position)), env,
                           o.started.value.(message := start.message, autolock := lock), start.startedAtMs, Suppress);
    }
  }

  lemma SyncedStartSendsNoFinish(r: Runtime, env: Env, peer: PeerId, start: SyncedStart)
    requires NoFinish(r.commands)
    ensures NoFinish(ApplySyncedBreakStart(r, env, peer, start).after.commands)
  {
    JoinSendsNoFinish(r, env, start);
    var o := S.ReplacementSyncedBreak(r.scheduler, start.name, start.origin, env.pick);
    if r.current.Some? && o.started.Some? {
      var lock := ReplacedLock(start, r.current.value, o.started.value.autolock);
      StartAtSendsNoFinish(r.(scheduler := S.MergeSyncedPosition(o.after, start.position)), env,
                           o.started.value.(message := start.message, autolock := lock), start.startedAtMs, Suppress);
    }
  }

  lemma ControlSendsNoFinish(r: Runtime, env: Env, duration: nat, propagation: Propagation)
    requires NoFinish(r.commands)
    ensures NoFinish(DisableForDuration(r, env, duration, propagation).after.commands)
  {
  }

  lemma DisableSendsNoFinish(r: Runtime, env: Env, propagation: Propagation)
    requires NoFinish(r.commands)
    ensures NoFinish(DisableUntil(r, env, propagation).after.commands)
  {
  }

  lemma EndSendsNoFinish(r: Runtime, env: Env, propagation: Propagation)
    requires NoFinish(r.commands)
    ensures NoFinish(RuntimeModel.RequestLock(r, env, propagation).after.commands)
    ensures NoFinish(FailStart(r).commands) && NoFinish(ClearNotice(r).commands)
    ensures NoFinish(ApplySchedulerReset(r, propagation).commands)
    ensures NoFinish(EnableScheduler(r, propagation).commands)
  {
  }

  lemma ClockSendsNoFinish(r: Runtime, env: Env, elapsed: nat)
    requires NoFinish(r.commands)
    ensures NoFinish(AdvanceIdle(r, elapsed).commands) && NoFinish(AdvanceWallClock(r, env, elapsed).commands)
  {
  }

  lemma LocalSendsNoFinish(r: Runtime, env: Env, e: RuntimeEvent)
    requires r.Valid() && NoFinish(r.commands) && e != BreakFinished
    ensures NoFinish(HandleEvent(r, env, e).after.commands)
  {
    match e
    case ActiveElapsed(elapsed) => ObserveSendsNoFinish(r, env, elapsed, Forward, Forward);
    case IdleElapsed(elapsed) => ClockSendsNoFinish(r, env, elapsed);
    case WallClockElapsed(elapsed) => ClockSendsNoFinish(r, env, elapsed);
    case StartManual(name) => ManualSendsNoFinish(r, env, name);
    case DisableBreaks(For(duration)) => ControlSendsNoFinish(r, env, duration, Forward);
    case DisableBreaks(UntilRestartRequest) => DisableSendsNoFinish(r, env, Forward);
    case LockAfterBreak => EndSendsNoFinish(r, env, Forward);
    case BreakStartFailed => EndSendsNoFinish(r, env, Forward);
    case EnableBreaks => EndSendsNoFinish(r, env, Forward);
    case Shutdown => EndSendsNoFinish(r, env, Forward);
  }

  lemma SyncSendsNoFinish(r: Runtime, env: Env, peer: PeerId, e: P.SyncEvent)
    requires r.Valid() && NoFinish(r.commands)
    ensures NoFinish(HandleSyncEvent(r, env, peer, e).after.commands)
  {
    match e
    case ActiveTimeElapsed(elapsed) => ObserveSendsNoFinish(r, env, elapsed, Suppress, Forward);
    case BreakStarted(name, message, at, origin, p) =>
      SyncedStartSendsNoFinish(r, env, peer, SyncedStart(name, message, at, origin, p, None));
    case SchedulerState(slot, elapsed, last, b) => SnapshotSendsNoFinish(r, env, peer, Position(slot, elapsed, last), b);
    case DisableFor(duration) => ControlSendsNoFinish(r, env, duration, Suppress);
    case DisableUntilRestart => DisableSendsNoFinish(r, env, Suppress);
    case _ => EndSendsNoFinish(r, env, Suppress);
  }

  lemma SnapshotSendsNoFinish(r: Runtime, env: Env, peer: PeerId, p: Position, b: Option<P.ActiveBreak>)
    requires NoFinish(r.commands)
    ensures NoFinish(ApplySyncedSchedulerState(r, env, peer, p, b).after.commands)
  {
    if b.Some? {
      SyncedStartSendsNoFinish(r, env, peer,
        SyncedStart(b.value.name, b.value.message, b.value.startedAtMs, b.value.origin, p, Some(b.value.lockAfter)));
    }
  }

  lemma TransportSendsNoFinish(r: Runtime, env: Env, t: TransportEvent)
    requires r.Valid() && NoFinish(r.commands)
    ensures NoFinish(HandleTransport(r, env, t).after.commands)
  {
    if t.Domain? { SyncSendsNoFinish(r, env, t.peer, t.event); }
  }

  /** The daemon finishes a break for one reason only: the backend said it was over. */
  lemma OnlyFinishedFinishes(r: Runtime, turn: Turn)
    requires r.Valid() && turn.input != Local(BreakFinished)
    ensures NoFinish(TakeTurn(r, turn).after.commands)
  {
    match turn.input
    case Local(e) => LocalSendsNoFinish(Drained(r), turn.env, e);
    case Sync(t) => TransportSendsNoFinish(Drained(r), turn.env, t);
  }

  // ----- the waiting break -----

  /** A reported finish that the daemon hears before it is asked to stop. */
  predicate FinishAhead(events: seq<RuntimeEvent>) {
    events != [] && (events[0] == BreakFinished || (events[0] != Shutdown && FinishAhead(events[1..])))
  }

  /**
   * Whether a finish that locks still reaches a waiting break: the first command that settles its fate
   * is one, or there is none and the daemon will answer. A clear may go unacknowledged and settles nothing.
   */
  predicate LockAhead(commands: seq<Command>, answers: bool)
    decreases |commands|
  {
    if commands == [] then answers
    else
      match commands[0]
      case FinishBreak(lockAfter) => lockAfter
      case RequestLockAfterCurrentBreak => LockAhead(commands[1..], answers)
      case ClearBreak => LockAhead(commands[1..], answers)
      case StartBreak(_) => false
      case ReplaceActiveBreak(_, _, _) => false
  }

  /** The daemon still shows a break and will hear that it is over. */
  predicate Answers(l: Loop) { FinishAhead(Events(l)) && l.daemon.current.Some? }

  predicate CanStillLock(l: Loop) { LockAhead(l.commands, Answers(l)) }

  /** What holds of every state of a run, shutdown or not. */
  ghost predicate Sound(l: Loop) { l.daemon.Valid() && Joint(l.daemon) && AllFromBackend(Events(l)) }

  /** The break is over, and its finish waits for the user to unlock without a lock ahead; or it is gone. */
  predicate Settled(l: Loop) { (Deferred(l.core) && !CanStillLock(l)) || l.core.active.None? }

  /** Until the next break: none is started, and the waiting one is not replaced. */
  predicate SameBreak(l: Loop, s: LoopStep)
    requires Possible(l, s)
  {
    s.BackendTold? ==>
      && !l.commands[0].StartBreak?
      && (l.commands[0].ReplaceActiveBreak? ==> l.core.active.None?)
  }

  predicate AllSameBreak(l: Loop, steps: seq<LoopStep>)
    requires l.daemon.Valid()
    decreases |steps|
  {
    steps == [] || !Possible(l, steps[0]) ||
    (SameBreak(l, steps[0]) && (Move(l, steps[0]).running ==> AllSameBreak(Move(l, steps[0]).after, steps[1..])))
  }

  lemma {:induction false} FinishAheadAppend(events: seq<RuntimeEvent>, e: RuntimeEvent)
    requires e != BreakFinished
    ensures FinishAhead(events + [e]) <==> FinishAhead(events)
  {
    if events == [] {
      assert [e][1..] == [];
    } else {
      assert (events + [e])[0] == events[0] && (events + [e])[1..] == events[1..] + [e];
      FinishAheadAppend(events[1..], e);
    }
  }

  lemma {:induction false} LockAheadMonotone(commands: seq<Command>)
    ensures LockAhead(commands, false) ==> LockAhead(commands, true)
    decreases |commands|
  {
    if commands != [] { LockAheadMonotone(commands[1..]); }
  }

  /** A command at the end matters only if nothing before it settles the fate. */
  lemma {:induction false} LockAheadAppend(commands: seq<Command>, c: Command, answers: bool)
    ensures LockAhead(commands + [c], answers) <==> LockAhead(commands, LockAhead([c], answers))
    decreases |commands|
  {
    if commands == [] {
      assert commands + [c] == [c];
    } else {
      assert (commands + [c])[0] == commands[0] && (commands + [c])[1..] == commands[1..] + [c];
      LockAheadAppend(commands[1..], c, answers);
    }
  }

  // ----- every step -----

  lemma SampleKeepsKinds(c: Core, sample: Option<HelperSample>, out: Outside)
    requires AllFromBackend(c.poller.events)
    ensures AllFromBackend(TakeSample(c, sample, out).after.poller.events)
  {
    SampleKeepsEvents(c, sample, out);
  }

  lemma MoveSound(l: Loop, s: LoopStep)
    requires Sound(l) && Possible(l, s)
    ensures Sound(Move(l, s).after)
  {
    match s
    case DaemonHears(env) => TurnKeepsJoint(l.daemon, Turn(env, Local(Events(l)[0])));
    case DaemonTold(env, input) => TurnKeepsJoint(l.daemon, Turn(env, input));
    case BackendTold(out) => CommandKeepsShutdown(l.core, l.commands[0], out);
    case BackendSamples(sample, out) => SampleKeepsKinds(l.core, sample, out);
  }

  /** What the daemon sends in one turn brings no lock nearer, unless it was to answer a finish. */
  lemma TurnBringsNoLock(l: Loop, turn: Turn, finish: bool)
    requires l.daemon.Valid() && Joint(l.daemon) && turn.input != Local(BreakStartFailed)
    requires turn.input == Local(BreakFinished) ==> finish
    requires !LockAhead(l.commands, finish && l.daemon.current.Some?) && DaemonTurn(l, turn).running
    ensures var after := DaemonTurn(l, turn).after;
      !LockAhead(after.commands, finish && after.daemon.current.Some?)
  {
    var step := TakeTurn(l.daemon, turn);
    InputConforms(Drained(l.daemon), turn.env, turn.input);
    LockAheadMonotone(l.commands);
    if step.after.commands == [] {
      assert l.commands + [] == l.commands;
    } else {
      var c := step.after.commands[0];
      assert step.after.commands == [c];
      if turn.input != Local(BreakFinished) { OnlyFinishedFinishes(l.daemon, turn); }
      assert [c][1..] == [];
      LockAheadAppend(l.commands, c, finish && step.after.current.Some?);
    }
  }

  lemma HearingSettled(l: Loop, env: Env)
    requires Sound(l) && Deferred(l.core) && !CanStillLock(l) && Possible(l, DaemonHears(env))
    requires Move(l, DaemonHears(env)).running
    ensures !CanStillLock(Move(l, DaemonHears(env)).after)
  {
    var turn := Turn(env, Local(Events(l)[0]));
    assert FromBackend(Events(l)[0]);
    if Events(l)[0] == Shutdown { ShutdownStops(l, env); }
    TurnBringsNoLock(Heard(l), turn, FinishAhead(Events(l)));
    if Events(l)[0] == BreakFinished { FinishedShowsNothing(l.daemon, env); }
  }

  lemma CommandSettled(l: Loop, out: Outside)
    requires Sound(l) && Settled(l) && l.commands != [] && SameBreak(l, BackendTold(out))
    ensures var after := Move(l, BackendTold(out)).after;
      Settled(after) && LocksNothing(l.core, after.core)
  {
    FinishAheadAppend(Events(l), Shutdown);
    CommandKeepsShutdown(l.core, l.commands[0], out);
    if Deferred(l.core) {
      DeferredLocksIff(l.core, MacStep(Told(l.commands[0]), out));
    } else {
      QuietStep(l.core, MacStep(Told(l.commands[0]), out));
    }
  }

  lemma SampleSettled(l: Loop, sample: Option<HelperSample>, out: Outside)
    requires Sound(l) && Settled(l)
    ensures var after := Move(l, BackendSamples(sample, out)).after;
      Settled(after) && LocksNothing(l.core, after.core)
  {
    QuietStep(l.core, MacStep(Sampled(sample), out));
    if Deferred(l.core) && sample.Some? {
      FinishAheadAppend(Events(l), WallClockElapsed(Elapsed(l.core.active.value, out.at)));
    }
  }

  lemma NothingSaid(c: Core)
    ensures LocksNothing(c, c)
  {
    assert c.helper[|c.helper|..] == [];
  }

  lemma MoveSettled(l: Loop, s: LoopStep)
    requires Sound(l) && Settled(l) && Possible(l, s) && SameBreak(l, s)
    ensures LocksNothing(l.core, Move(l, s).after.core)
    ensures Move(l, s).running ==> Settled(Move(l, s).after)
  {
    NothingSaid(l.core);
    match s
    case DaemonHears(env) =>
      if Deferred(l.core) && !CanStillLock(l) && Move(l, s).running { HearingSettled(l, env); }
    case DaemonTold(env, input) =>
      if Deferred(l.core) && !CanStillLock(l) && Move(l, s).running {
        TurnBringsNoLock(l, Turn(env, input), FinishAhead(Events(l)));
      }
    case BackendTold(out) => CommandSettled(l, out);
    case BackendSamples(sample, out) => SampleSettled(l, sample, out);
  }

  /** A break that waits without a lock ahead never locks, whatever the user and peers ask for meanwhile. */
  lemma {:induction false} LockedFinishNeverLocks(l: Loop, steps: seq<LoopStep>)
    requires Sound(l) && Settled(l) && AllSameBreak(l, steps)
    ensures LocksNothing(l.core, ClosedLoop.Run(l, steps).after.core)
    decreases |steps|
  {
    if steps != [] && Possible(l, steps[0]) {
      var next := Move(l, steps[0]).after;
      MoveSettled(l, steps[0]);
      if Move(l, steps[0]).running {
        MoveSound(l, steps[0]);
        LockedFinishNeverLocks(next, steps[1..]);
        LocksNothingTwice(l.core, next.core, ClosedLoop.Run(next, steps[1..]).after.core);
      }
    } else {
      NothingSaid(l.core);
    }
  }

  // ----- how a lock ahead is reached -----

  /** What was said and done is never taken back. */
  predicate Grows(before: Core, after: Core) { before.helper <= after.helper && before.lockRuns <= after.lockRuns }

  lemma CoreGrows(c: Core, s: MacStep)
    ensures Grows(c, Do(c, s).after)
  {
    StepSaysOneThing(c, s);
  }

  lemma MoveGrows(l: Loop, s: LoopStep)
    requires l.daemon.Valid() && Possible(l, s)
    ensures Grows(l.core, Move(l, s).after.core)
  {
    match s
    case BackendTold(out) => CoreGrows(l.core, MacStep(Told(l.commands[0]), out));
    case BackendSamples(sample, out) => CoreGrows(l.core, MacStep(Sampled(sample), out));
    case _ =>
  }

  lemma {:induction false} RunGrows(l: Loop, steps: seq<LoopStep>)
    requires l.daemon.Valid()
    ensures Grows(l.core, ClosedLoop.Run(l, steps).after.core)
    decreases |steps|
  {
    if steps != [] && Possible(l, steps[0]) {
      MoveGrows(l, steps[0]);
      if Move(l, steps[0]).running { RunGrows(Move(l, steps[0]).after, steps[1..]); }
    }
  }

  /** The run stays with the waiting break, and locks. */
  ghost predicate Locks(l: Loop, steps: seq<LoopStep>)
    requires l.daemon.Valid()
  {
    AllSameBreak(l, steps) && !LocksNothing(l.core, ClosedLoop.Run(l, steps).after.core)
  }

  lemma LocksLater(a: Core, b: Core, c: Core)
    requires Grows(a, b) && Grows(b, c) && LocksNothing(a, c)
    ensures LocksNothing(b, c)
  {
    var said, later := c.helper[|a.helper|..], c.helper[|b.helper|..];
    forall i | 0 <= i < |later| ensures later[i].HideBreak? ==> !later[i].lockAfter {
      assert later[i] == said[i + |b.helper| - |a.helper|];
    }
  }

  lemma RunOfPrepended(l: Loop, s: LoopStep, rest: seq<LoopStep>)
    requires l.daemon.Valid() && Possible(l, s) && Move(l, s).running
    ensures ClosedLoop.Run(l, [s] + rest) == ClosedLoop.Run(Move(l, s).after, rest)
    ensures AllSameBreak(l, [s] + rest) <==> SameBreak(l, s) && AllSameBreak(Move(l, s).after, rest)
  {
    var all := [s] + rest;
    assert all != [] && all[0] == s && all[1..] == rest;
  }

  lemma Prepend(l: Loop, s: LoopStep, rest: seq<LoopStep>)
    requires l.daemon.Valid() && Possible(l, s) && SameBreak(l, s) && Move(l, s).running
    requires Locks(Move(l, s).after, rest)
    ensures Locks(l, [s] + rest)
  {
    var next := Move(l, s).after;
    var end := ClosedLoop.Run(next, rest).after.core;
    RunOfPrepended(l, s, rest);
    MoveGrows(l, s);
    RunGrows(next, rest);
    if LocksNothing(l.core, end) { LocksLater(l.core, next.core, end); }
  }

  function Acked(): Outside { Outside(true, true, ObservedTime(0, 0)) }

  function Now(): Env { Env(0, 0, 0, true) }

  /** A finish command that locks, carried out. */
  lemma FinishLocks(l: Loop)
    requires Sound(l) && Deferred(l.core) && l.commands != [] && l.commands[0] == Command.FinishBreak(true)
    ensures Locks(l, [BackendTold(Acked())])
  {
    var s := BackendTold(Acked());
    assert [s][1..] == [];
    DeferredLocksIff(l.core, MacStep(Told(l.commands[0]), Acked()));
  }

  /** Time and lock requests leave a break that is to lock alone. */
  lemma TimeKeepsBreak(r: Runtime, e: RuntimeEvent)
    requires r.Valid() && Joint(r) && r.current.Some? && r.current.value.lockAfter
    requires FromBackend(e) && e != BreakFinished && e != Shutdown
    ensures var step := TakeTurn(r, Turn(Now(), Local(e)));
      step.running && step.after.commands == [] && step.after.current == r.current
  {
  }

  /** The daemon hears events until the finish, and its answer locks. */
  lemma {:induction false} AnswerLocks(l: Loop) returns (steps: seq<LoopStep>)
    requires Sound(l) && Deferred(l.core) && l.commands == [] && FinishAhead(Events(l))
    requires l.daemon.current.Some? && l.daemon.current.value.lockAfter
    ensures Locks(l, steps)
    decreases |Events(l)|
  {
    var hears := DaemonHears(Now());
    var heard := Move(l, hears).after;
    MoveSound(l, hears);
    if Events(l)[0] == BreakFinished {
      assert heard.commands == [Command.FinishBreak(true)];
      FinishLocks(heard);
      steps := [hears] + [BackendTold(Acked())];
      Prepend(l, hears, [BackendTold(Acked())]);
    } else {
      TimeKeepsBreak(l.daemon, Events(l)[0]);
      assert heard.commands == [];
      var rest := AnswerLocks(heard);
      steps := [hears] + rest;
      Prepend(l, hears, rest);
    }
  }

  /** A lock requested by the user or a peer is on the daemon's mind. */
  lemma AskedToLock(l: Loop)
    requires Sound(l) && l.commands == [] && l.daemon.current.Some? && !l.daemon.current.value.lockAfter
    ensures var asked := Move(l, Asks()).after;
      && Move(l, Asks()).running && asked.core == l.core && asked.commands == [RequestLockAfterCurrentBreak]
      && asked.daemon.current == Some(l.daemon.current.value.(lockAfter := true))
  {
  }

  function Asks(): LoopStep { DaemonTold(Now(), Sync(Domain(0, P.LockAfterCurrentBreak))) }

  /** One command that settles nothing: a request gets through, a clear goes unacknowledged. */
  lemma PassedOver(l: Loop, out: Outside)
    requires Sound(l) && Deferred(l.core) && l.commands != []
    requires l.commands[0] == RequestLockAfterCurrentBreak || (l.commands[0] == ClearBreak && !out.acked)
    ensures var after := Move(l, BackendTold(out)).after;
      && Deferred(after.core) && (FinishAhead(Events(after)) <==> FinishAhead(Events(l)))
      && after.commands == l.commands[1..] && after.daemon == l.daemon
  {
    FinishAheadAppend(Events(l), Shutdown);
  }

  lemma {:induction false} LockReached(l: Loop) returns (steps: seq<LoopStep>)
    requires Sound(l) && Deferred(l.core) && CanStillLock(l)
    ensures Locks(l, steps)
    decreases |l.commands|
  {
    if l.commands == [] {
      if l.daemon.current.value.lockAfter {
        steps := AnswerLocks(l);
      } else {
        var asked := Move(l, Asks()).after;
        AskedToLock(l);
        MoveSound(l, Asks());
        var told := BackendTold(Acked());
        PassedOver(asked, Acked());
        MoveSound(asked, told);
        var rest := AnswerLocks(Move(asked, told).after);
        Prepend(asked, told, rest);
        Prepend(l, Asks(), [told] + rest);
        steps := [Asks()] + ([told] + rest);
      }
    } else if l.commands[0].FinishBreak? {
      FinishLocks(l);
      steps := [BackendTold(Acked())];
    } else {
      var told := BackendTold(Acked().(acked := !l.commands[0].ClearBreak?));
      PassedOver(l, told.out);
      MoveSound(l, told);
      var rest := LockReached(Move(l, told).after);
      Prepend(l, told, rest);
      steps := [told] + rest;
    }
  }

  lemma NeverLocks(l: Loop)
    requires Sound(l) && Settled(l)
    ensures forall steps :: !Locks(l, steps)
  {
    forall steps ensures !Locks(l, steps) {
      if AllSameBreak(l, steps) { LockedFinishNeverLocks(l, steps); }
    }
  }

  /**
   * A break that was over in a locked session can still lock it, before the next break, exactly if the
   * first command on its way that settles its fate is a finish that locks, or there is none and the
   * daemon, which still shows a break, has a reported finish to answer.
   */
  lemma CanLockIff(l: Loop)
    requires Sound(l) && Deferred(l.core)
    ensures (exists steps :: Locks(l, steps)) <==> CanStillLock(l)
  {
    if CanStillLock(l) {
      var steps := LockReached(l);
      assert Locks(l, steps);
    } else {
      NeverLocks(l);
    }
  }

  lemma {:induction false} FinishAheadIffQueued(events: seq<RuntimeEvent>)
    requires Shutdown !in events
    ensures FinishAhead(events) <==> BreakFinished in events
  {
    if events != [] {
      assert events == [events[0]] + events[1..];
      FinishAheadIffQueued(events[1..]);
    }
  }

  /** Once its own commands are carried out: exactly if a finish, of an earlier break, is still on its way. */
  lemma StaleFinishLocksIff(l: Loop)
    requires l.daemon.Valid() && Linked(l) && Deferred(l.core) && l.commands == [] && Shutdown !in Events(l)
    ensures (exists steps :: Locks(l, steps)) <==> BreakFinished in Events(l)
  {
    CanLockIff(l);
    FinishAheadIffQueued(Events(l));
  }

  /** Every state the two reach from start-up is one of those. */
  lemma {:induction false} RunIsSound(l: Loop, steps: seq<LoopStep>)
    requires Sound(l)
    ensures Sound(ClosedLoop.Run(l, steps).after)
    decreases |steps|
  {
    if steps != [] && Possible(l, steps[0]) {
      MoveSound(l, steps[0]);
      if Move(l, steps[0]).running { RunIsSound(Move(l, steps[0]).after, steps[1..]); }
    }
  }

  lemma StartIsSound(schedule: Schedule, localPeer: Option<PeerId>, interval: nat, lock: MacOSLock)
    requires ValidSchedule(schedule)
    ensures Sound(Start(schedule, localPeer, interval, lock))
  {
  }

  /** And it does ask for one, when a lock was requested while the break was shown. */
  lemma DaemonAnswersWithLock(r: Runtime, env: Env)
    requires r.Valid() && r.current.Some? && env.backendUp
    ensures var asked := RuntimeModel.RequestLock(r, env, Forward).after;
      TakeTurn(asked, Turn(env, Local(BreakFinished))).after.commands == [FinishBreak(true)]
  {
  }
}
