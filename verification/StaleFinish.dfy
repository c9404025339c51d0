/**
 * Runs in which the backend's report that a break is over is still on its way when the daemon begins the
 * next one, and what that leads to. When exactly it does: `LockedFinish.CanLockIff` and
 * `FinishReports.ReportIsForShownIff`.
 */
module StaleFinish {
  import opened Base
  import opened Schedules
  import opened RuntimeModel
  import opened RuntimeRuns
  import opened ActivityModel
  import opened MacHelperModel
  import opened MacHelperRuns
  import opened ClosedLoop
  import opened LockedFinish
  import opened Limits
  import Protocol
  import S = SchedulerModel

  function AtMinute(n: nat): Outside { Outside(true, true, ObservedTime(n * MINUTE, n * MINUTE)) }

  function ByHand(): LoopStep { DaemonTold(At(0), Local(StartManual("a"))) }

  function Looks(minute: nat, locked: bool): LoopStep {
    BackendSamples(Some(HelperSample(0, locked, false)), AtMinute(minute))
  }

  /** A break is shown and ends; before the daemon hears of it, the user turns breaks off and starts another. */
  function Opening(): seq<LoopStep> {
    [ByHand(), BackendTold(AtMinute(0)), Looks(1, false),
     DaemonTold(At(0), Local(DisableBreaks(UntilRestartRequest))), ByHand(),
     BackendTold(AtMinute(1)), BackendTold(AtMinute(1))]
  }

  function First(): Loop
    requires ValidSchedule(Single())
  {
    Start(Single(), None, MINUTE, PlatformDefault)
  }

  /** A daemon of that schedule, with or without a break, and what is on its way. */
  ghost predicate Is(l: Loop, shows: bool, commands: seq<Command>, events: seq<RuntimeEvent>) {
    && Sound(l) && l.daemon.scheduler.schedule == Single() && l.daemon.current.Some? == shows
    && l.commands == commands && Events(l) == events && l.core.lock == PlatformDefault
  }

  function Rest(): ScheduledBreak { ToBreak(Named("a", 1, false), Manual, 0) }

  lemma StartsByHand(l: Loop, commands: seq<Command>, events: seq<RuntimeEvent>)
    requires Is(l, false, commands, events)
    ensures Move(l, ByHand()).running && Move(l, ByHand()).after.core == l.core
    ensures Is(Move(l, ByHand()).after, true, commands + [Command.StartBreak(Rest())], events)
  {
    SchedulesAreValid();
    MoveSound(l, ByHand());
    var s := l.daemon.scheduler;
    assert FindRule(s.Rules(), "a") == Some(Named("a", 1, false));
    assert S.ManualBreakIsAvailable(s, "a") by {
      if s.state == S.Ready(S.Active) { assert S.NextRule(s) in Single().rules; }
    }
  }

  lemma TurnsOff(l: Loop, events: seq<RuntimeEvent>)
    requires Is(l, true, [], events)
    ensures var m := Move(l, DaemonTold(At(0), Local(DisableBreaks(UntilRestartRequest))));
      m.running && m.after.core == l.core && Is(m.after, false, [ClearBreak], events)
  {
    MoveSound(l, DaemonTold(At(0), Local(DisableBreaks(UntilRestartRequest))));
  }

  lemma IsShown(l: Loop, minute: nat, events: seq<RuntimeEvent>)
    requires Is(l, true, [Command.StartBreak(Rest())], events)
    ensures var after := Move(l, BackendTold(AtMinute(minute))).after;
      && Is(after, true, [], events)
      && after.core.active == Some(NewOverlay(MINUTE, false, AtMinute(minute).at))
  {
    MoveSound(l, BackendTold(AtMinute(minute)));
  }

  lemma IsCleared(l: Loop, events: seq<RuntimeEvent>)
    requires Is(l, true, [ClearBreak, Command.StartBreak(Rest())], events)
    ensures Is(Move(l, BackendTold(AtMinute(1))).after, true, [Command.StartBreak(Rest())], events)
  {
    MoveSound(l, BackendTold(AtMinute(1)));
  }

  lemma IsOver(l: Loop)
    requires Is(l, true, [], []) && l.core.active == Some(NewOverlay(MINUTE, false, AtMinute(0).at))
    ensures var m := Move(l, Looks(1, false));
      && m.running && m.after.daemon == l.daemon && m.after.core.active.None?
      && Is(m.after, true, [], [WallClockElapsed(MINUTE), BreakFinished])
  {
    MoveSound(l, Looks(1, false));
  }

  /** One step of a list of steps. */
  lemma Along(l: Loop, steps: seq<LoopStep>, k: nat)
    requires k < |steps| && l.daemon.Valid() && Possible(l, steps[k]) && Move(l, steps[k]).running
    ensures ClosedLoop.Run(l, steps[k..]) == ClosedLoop.Run(Move(l, steps[k]).after, steps[k + 1..])
  {
    assert steps[k..][0] == steps[k] && steps[k..][1..] == steps[k + 1..];
  }

  lemma FirstStarts(steps: seq<LoopStep>) returns (l: Loop)
    requires Opening() <= steps && ValidSchedule(Single())
    ensures Is(l, true, [Command.StartBreak(Rest())], []) && ClosedLoop.Run(First(), steps) == ClosedLoop.Run(l, steps[1..])
  {
    assert steps[0] == Opening()[0] && steps[0..] == steps;
    StartIsSound(Single(), None, MINUTE, PlatformDefault);
    StartsByHand(First(), [], []);
    Along(First(), steps, 0);
    l := Move(First(), ByHand()).after;
  }

  /** The first break, up to the report that it is over. */
  lemma FirstBreak(steps: seq<LoopStep>) returns (l: Loop)
    requires Opening() <= steps && ValidSchedule(Single())
    ensures Is(l, true, [], [WallClockElapsed(MINUTE), BreakFinished])
    ensures ClosedLoop.Run(First(), steps) == ClosedLoop.Run(l, steps[3..])
  {
    assert steps[1] == Opening()[1] && steps[2] == Opening()[2];
    l := FirstStarts(steps);
    IsShown(l, 0, []);
    Along(l, steps, 1);
    l := Move(l, BackendTold(AtMinute(0))).after;
    IsOver(l);
    Along(l, steps, 2);
    l := Move(l, Looks(1, false)).after;
  }

  lemma FirstTurnsOff(steps: seq<LoopStep>) returns (l: Loop)
    requires Opening() <= steps && ValidSchedule(Single())
    ensures Is(l, false, [ClearBreak], [WallClockElapsed(MINUTE), BreakFinished])
    ensures ClosedLoop.Run(First(), steps) == ClosedLoop.Run(l, steps[4..])
  {
    assert steps[3] == Opening()[3];
    l := FirstBreak(steps);
    TurnsOff(l, [WallClockElapsed(MINUTE), BreakFinished]);
    Along(l, steps, 3);
    l := Move(l, steps[3]).after;
  }

  lemma SecondStarts(steps: seq<LoopStep>) returns (l: Loop)
    requires Opening() <= steps && ValidSchedule(Single())
    ensures Is(l, true, [ClearBreak, Command.StartBreak(Rest())], [WallClockElapsed(MINUTE), BreakFinished])
    ensures ClosedLoop.Run(First(), steps) == ClosedLoop.Run(l, steps[5..])
  {
    assert steps[4] == Opening()[4];
    l := FirstTurnsOff(steps);
    StartsByHand(l, [ClearBreak], [WallClockElapsed(MINUTE), BreakFinished]);
    Along(l, steps, 4);
    l := Move(l, ByHand()).after;
  }

  /** The second one, up to its overlay; the report is still on its way. */
  lemma SecondBreak(steps: seq<LoopStep>) returns (l: Loop)
    requires Opening() <= steps && ValidSchedule(Single())
    ensures Is(l, true, [], [WallClockElapsed(MINUTE), BreakFinished])
    ensures l.core.active == Some(NewOverlay(MINUTE, false, AtMinute(1).at))
    ensures ClosedLoop.Run(First(), steps) == ClosedLoop.Run(l, steps[7..])
  {
    assert steps[5] == Opening()[5] && steps[6] == Opening()[6];
    var events := [WallClockElapsed(MINUTE), BreakFinished];
    l := SecondStarts(steps);
    IsCleared(l, events);
    Along(l, steps, 5);
    l := Move(l, BackendTold(AtMinute(1))).after;
    IsShown(l, 1, events);
    Along(l, steps, 6);
    l := Move(l, BackendTold(AtMinute(1))).after;
  }

  /** The session is locked when the second break is over, so its finish waits. */
  function UntilItWaits(): seq<LoopStep> { Opening() + [Looks(2, true)] }

  lemma NewBreakWaits(l: Loop)
    requires Is(l, true, [], [WallClockElapsed(MINUTE), BreakFinished])
    requires l.core.active == Some(NewOverlay(MINUTE, false, AtMinute(1).at))
    ensures var m := Move(l, Looks(2, true));
      && m.running && Deferred(m.after.core)
      && Is(m.after, true, [], [WallClockElapsed(MINUTE), BreakFinished, WallClockElapsed(MINUTE)])
  {
    MoveSound(l, Looks(2, true));
  }

  /** From start-up to a finish that waits for the user to unlock, and that can still lock the session. */
  lemma WaitingBreakCanLock()
    ensures ValidSchedule(Single())
    ensures var m := ClosedLoop.Run(First(), UntilItWaits());
      && m.running && Deferred(m.after.core)
      && exists steps :: Locks(m.after, steps)
  {
    SchedulesAreValid();
    var all := UntilItWaits();
    var l := SecondBreak(all);
    assert all[7] == Looks(2, true);
    NewBreakWaits(l);
    Along(l, all, 7);
    l := Move(l, Looks(2, true)).after;
    assert all[8..] == [];
    FinishIsAhead(l);
    CanLockIff(l);
  }

  lemma FinishIsAhead(l: Loop)
    requires Is(l, true, [], [WallClockElapsed(MINUTE), BreakFinished, WallClockElapsed(MINUTE)])
    ensures CanStillLock(l)
  {
    assert FinishAhead(Events(l)[1..]);
    assert FinishAhead(Events(l)) && l.daemon.current.Some?;
  }

  /** Or the daemon hears the report while the second break is still to run for a minute. */
  function UntilItIsHeard(): seq<LoopStep> { Opening() + [DaemonHears(At(0)), DaemonHears(At(0))] }

  lemma NewBreakIsCutShort()
    ensures ValidSchedule(Single())
    ensures var m := ClosedLoop.Run(First(), UntilItIsHeard());
      && m.running && m.after.daemon.current.None? && |m.after.commands| == 1 && m.after.commands[0].FinishBreak?
      && m.after.core.active == Some(NewOverlay(MINUTE, false, AtMinute(1).at))
      && RemainingAt(m.after.core.active.value.deadline, AtMinute(1).at.wall) == MINUTE
  {
    SchedulesAreValid();
    var all := UntilItIsHeard();
    assert all[7] == DaemonHears(At(0)) && all[8] == DaemonHears(At(0)) && all[9..] == [];
    var l := SecondBreak(all);
    TicksOn(l);
    Along(l, all, 7);
    l := Move(l, DaemonHears(At(0))).after;
    IsEnded(l);
    Along(l, all, 8);
  }

  lemma IsEnded(l: Loop)
    requires Is(l, true, [], [BreakFinished])
    ensures var m := Move(l, DaemonHears(At(0)));
      && m.running && m.after.daemon.current.None? && m.after.core.active == l.core.active
      && |m.after.commands| == 1 && m.after.commands[0].FinishBreak?
  {
  }

  lemma TicksOn(l: Loop)
    requires Is(l, true, [], [WallClockElapsed(MINUTE), BreakFinished])
    ensures var m := Move(l, DaemonHears(At(0)));
      && m.running && m.after.core.active == l.core.active && Is(m.after, true, [], [BreakFinished])
      && m.after.daemon.current == l.daemon.current
  {
    MoveSound(l, DaemonHears(At(0)));
  }

  // ----- a replacement -----

  function PeersBreak(slot: nat, at: nat): Protocol.SyncEvent {
    Protocol.BreakStarted("a", "Rest", at, Scheduled(slot), Position(slot, 0, map["a" := slot]))
  }

  function Announces(slot: nat, at: nat, now: nat): LoopStep { DaemonTold(At(now), Sync(Domain(2, PeersBreak(slot, at)))) }

  /** A peer's break is shown and ends; before the daemon hears of it, the peer's next one replaces it. */
  function UntilReplaced(): seq<LoopStep> {
    [Announces(1, 0, 0), BackendTold(AtMinute(0)), Looks(1, false), DaemonHears(At(60_000)), Announces(2, 59_999, 60_000)]
  }

  function Paired(): Loop
    requires ValidSchedule(Single())
  {
    Start(Single(), Some(1), MINUTE, PlatformDefault)
  }

  ghost predicate ShowsPeers(l: Loop, slot: nat, at: nat, commands: seq<Command>, events: seq<RuntimeEvent>) {
    && Is(l, true, commands, events) && l.daemon.scheduler.slot == slot
    && l.daemon.current == Some(CurrentBreak("a", "Rest", Scheduled(slot), false, at))
  }

  function PeersRest(): ScheduledBreak { ScheduledBreak("a", Scheduled(1), MINUTE, "Rest", false) }

  lemma TakesFirst(r: Runtime)
    requires ValidSchedule(Single()) && r == Drained(RuntimeModel.New(Single(), Some(1)))
    ensures var step := HandleSyncEvent(r, At(0), 2, PeersBreak(1, 0));
      && step.running && step.after.scheduler.slot == 1
      && step.after.current == Some(CurrentBreak("a", "Rest", Scheduled(1), false, 0))
      && step.after.commands == [Command.StartBreak(PeersRest())]
  {
    assert FindRule(Single().rules, "a") == Some(Named("a", 1, false));
  }

  lemma JoinsPeer(l: Loop)
    requires ValidSchedule(Single()) && l == Paired()
    ensures var m := Move(l, Announces(1, 0, 0));
      m.running && m.after.core == l.core && ShowsPeers(m.after, 1, 0, [Command.StartBreak(PeersRest())], [])
  {
    StartIsSound(Single(), Some(1), MINUTE, PlatformDefault);
    MoveSound(l, Announces(1, 0, 0));
    TakesFirst(Drained(l.daemon));
  }

  lemma PeersIsShown(l: Loop)
    requires ShowsPeers(l, 1, 0, [Command.StartBreak(PeersRest())], [])
    ensures var after := Move(l, BackendTold(AtMinute(0))).after;
      && ShowsPeers(after, 1, 0, [], [])
      && after.core.active == Some(NewOverlay(MINUTE, false, AtMinute(0).at))
  {
    MoveSound(l, BackendTold(AtMinute(0)));
  }

  /** What the second announcement does to the break shown and to the scheduler. */
  lemma TakesPlace(r: Runtime)
    requires r.Valid() && r.scheduler.schedule == Single() && r.scheduler.slot == 1 && r.commands == []
    requires r.current == Some(CurrentBreak("a", "Rest", Scheduled(1), false, 0))
    ensures var step := HandleSyncEvent(r, At(60_000), 2, PeersBreak(2, 59_999));
      && step.running && step.after.scheduler.slot == 2
      && step.after.current == Some(CurrentBreak("a", "Rest", Scheduled(2), false, 59_999))
      && step.after.commands == [ReplaceActiveBreak("Rest", MINUTE - 1_000_000, false)]
  {
    assert FindRule(Single().rules, "a") == Some(Named("a", 1, false));
  }

  lemma IsReplaced(l: Loop)
    requires ShowsPeers(l, 1, 0, [], [BreakFinished]) && l.core.active.None?
    ensures var m := Move(l, Announces(2, 59_999, 60_000));
      m.running && m.after.core.active.None?
      && ShowsPeers(m.after, 2, 59_999, [ReplaceActiveBreak("Rest", MINUTE - 1_000_000, false)], [BreakFinished])
  {
    MoveSound(l, Announces(2, 59_999, 60_000));
    TakesPlace(Drained(l.daemon));
  }

  lemma PeersTicksOn(l: Loop)
    requires ShowsPeers(l, 1, 0, [], [WallClockElapsed(MINUTE), BreakFinished]) && l.core.active.None?
    ensures var m := Move(l, DaemonHears(At(60_000)));
      m.running && m.after.core.active.None? && ShowsPeers(m.after, 1, 0, [], [BreakFinished])
  {
    MoveSound(l, DaemonHears(At(60_000)));
  }

  lemma PeersFirst() returns (l: Loop)
    requires ValidSchedule(Single())
    ensures ShowsPeers(l, 1, 0, [], [])
    ensures l.core.active == Some(NewOverlay(MINUTE, false, AtMinute(0).at))
    ensures ClosedLoop.Run(Paired(), UntilReplaced()) == ClosedLoop.Run(l, UntilReplaced()[2..])
  {
    var all := UntilReplaced();
    assert all[0..] == all;
    JoinsPeer(Paired());
    Along(Paired(), all, 0);
    l := Move(Paired(), all[0]).after;
    PeersIsShown(l);
    Along(l, all, 1);
    l := Move(l, all[1]).after;
  }

  lemma PeersOver() returns (l: Loop)
    requires ValidSchedule(Single())
    ensures ShowsPeers(l, 1, 0, [], [BreakFinished]) && l.core.active.None?
    ensures ClosedLoop.Run(Paired(), UntilReplaced()) == ClosedLoop.Run(l, UntilReplaced()[4..])
  {
    var all := UntilReplaced();
    l := PeersFirst();
    IsOver(l);
    Along(l, all, 2);
    l := Move(l, all[2]).after;
    PeersTicksOn(l);
    Along(l, all, 3);
    l := Move(l, all[3]).after;
  }

  lemma PeersReplaced() returns (l: Loop)
    requires ValidSchedule(Single())
    ensures ShowsPeers(l, 2, 59_999, [ReplaceActiveBreak("Rest", MINUTE - 1_000_000, false)], [BreakFinished])
    ensures l.core.active.None? && ClosedLoop.Run(Paired(), UntilReplaced()) == Moved(l, true)
  {
    var all := UntilReplaced();
    l := PeersOver();
    IsReplaced(l);
    Along(l, all, 4);
    l := Move(l, all[4]).after;
    assert all[5..] == [];
  }

  lemma PeersEventsAreValid()
    ensures Protocol.ValidEvent(PeersBreak(1, 0)) && Protocol.ValidEvent(PeersBreak(2, 59_999))
  {
    SchedulesAreValid();
  }

  /**
   * The report about the first break, the only one queued and with nothing on the screen, then ends the
   * second one, of which all but a millisecond is left.
   */
  lemma ReplacementIsCutShort()
    ensures ValidSchedule(Single()) && Protocol.ValidEvent(PeersBreak(1, 0)) && Protocol.ValidEvent(PeersBreak(2, 59_999))
    ensures var m := ClosedLoop.Run(Paired(), UntilReplaced());
      && m.running && !Up(m.after) && Events(m.after) == [BreakFinished]
      && m.after.daemon.current == Some(CurrentBreak("a", "Rest", Scheduled(2), false, 59_999))
      && Remaining(60_000, 59_999, MINUTE) == MINUTE - 1_000_000
      && Move(m.after, DaemonHears(At(60_000))).after.daemon.current.None?
  {
    PeersEventsAreValid();
    SchedulesAreValid();
    var l := PeersReplaced();
    ReplacedIsEnded(l);
  }

  lemma ReplacedIsEnded(l: Loop)
    requires ShowsPeers(l, 2, 59_999, [ReplaceActiveBreak("Rest", MINUTE - 1_000_000, false)], [BreakFinished])
    requires l.core.active.None?
    ensures !Up(l) && Move(l, DaemonHears(At(60_000))).after.daemon.current.None?
    ensures Remaining(60_000, 59_999, MINUTE) == MINUTE - 1_000_000
  {
    FinishedShowsNothing(l.daemon, At(60_000));
    assert l.commands[1..] == [] && !UpAfter(false, l.commands[1..]);
  }
}
