/**
 * Which break a reported finish is about. Breaks are numbered as the daemon begins to show them, whether
 * it starts one or replaces one; a report carries the number of the break that was on the screen, and
 * the daemon ends whatever it then shows.
 */
module FinishReports {
  import opened Base
  import opened Schedules
  import opened RuntimeModel
  import opened RuntimeRuns
  import opened ActivityModel
  import opened MacHelperModel
  import opened MacHelperRuns
  import opened ClosedLoop

  /**
   * The number of the break the daemon began last and of the one the backend was told last, the number
   * on the screen, and that of the break each queued report is about; and how many replacements were on
   * their way when the last report was queued or were sent since.
   */
  datatype Traced = Traced(loop: Loop, issued: nat, told: nat, onScreen: nat, reports: seq<nat>, unseen: nat)

  predicate Begins(c: Command) { c.StartBreak? || c.ReplaceActiveBreak? }

  function BreaksAmong(commands: seq<Command>): nat
    decreases |commands|
  {
    if commands == [] then 0 else (if Begins(commands[0]) then 1 else 0) + BreaksAmong(commands[1..])
  }

  function ReplacementsAmong(commands: seq<Command>): nat
    decreases |commands|
  {
    if commands == [] then 0
    else (if commands[0].ReplaceActiveBreak? then 1 else 0) + ReplacementsAmong(commands[1..])
  }

  predicate TakesDown(before: Core, after: Core) { before.active.Some? && after.active.None? }

  /** A start puts its break on the screen once acknowledged, a replacement only where one is up. */
  predicate PutsOnScreen(c: Core, command: Command, out: Outside) {
    (command.StartBreak? && out.acked) || (command.ReplaceActiveBreak? && c.active.Some?)
  }

  function AfterTurn(t: Traced, l: Loop): Traced {
    t.(loop := l, issued := t.issued + BreaksAmong(l.daemon.commands),
       unseen := t.unseen + ReplacementsAmong(l.daemon.commands))
  }

  function AfterReport(t: Traced): Traced {
    t.(reports := t.reports + [t.onScreen], unseen := ReplacementsAmong(t.loop.commands))
  }

  function Note(t: Traced, s: LoopStep): (after: Traced)
    requires t.loop.daemon.Valid() && Possible(t.loop, s)
    ensures after.loop == Move(t.loop, s).after
  {
    var l := Move(t.loop, s).after;
    match s
    case DaemonHears(_) =>
      var taken := Events(t.loop)[0] == BreakFinished && t.reports != [];
      AfterTurn(t.(reports := if taken then t.reports[1..] else t.reports), l)
    case DaemonTold(_, _) => AfterTurn(t, l)
    case BackendTold(out) =>
      var command := t.loop.commands[0];
      t.(loop := l, told := t.told + if Begins(command) then 1 else 0,
         onScreen := if PutsOnScreen(t.loop.core, command, out) then t.told + 1 else t.onScreen)
    case BackendSamples(_, _) =>
      if TakesDown(t.loop.core, l.core) then AfterReport(t.(loop := l)) else t.(loop := l)
  }

  /** As `ClosedLoop.Run`, with the numbers. */
  function Trace(t: Traced, steps: seq<LoopStep>): (after: Traced)
    requires t.loop.daemon.Valid()
    ensures after.loop == ClosedLoop.Run(t.loop, steps).after
    decreases |steps|
  {
    if steps == [] || !Possible(t.loop, steps[0]) then t
    else if !Move(t.loop, steps[0]).running then Note(t, steps[0])
    else Trace(Note(t, steps[0]), steps[1..])
  }

  /** Reports are about different breaks, in order, and not about one still on the screen. */
  predicate InOrder(reports: seq<nat>, shown: nat, up: bool) {
    && (forall i, j | 0 <= i < j < |reports| :: reports[i] < reports[j])
    && (forall i | 0 <= i < |reports| :: if up then reports[i] < shown else reports[i] <= shown)
  }

  /** What the daemon shows without an overlay is what the last report is about, but for replacements. */
  predicate LastIsShown(t: Traced) {
    t.loop.daemon.current.Some? && !Up(t.loop) ==>
      t.reports != [] && t.reports[|t.reports| - 1] + t.unseen == t.issued
  }

  /** The screen is up to date with the commands carried out, and no command takes down what the daemon shows. */
  predicate ScreenKnown(t: Traced) {
    && t.issued == t.told + BreaksAmong(t.loop.commands)
    && t.onScreen <= t.told && (t.loop.core.active.Some? ==> t.onScreen == t.told)
    && (t.loop.daemon.current.Some? ==> UpAfter(true, t.loop.commands))
  }

  predicate Numbered(t: Traced) {
    Shutdown in Events(t.loop) ||
    (&& ScreenKnown(t)
     && |t.reports| == Finishes(Events(t.loop))
     && InOrder(t.reports, t.onScreen, t.loop.core.active.Some?)
     && LastIsShown(t))
  }

  lemma {:induction false} BreaksAppend(commands: seq<Command>, c: Command)
    ensures BreaksAmong(commands + [c]) == BreaksAmong(commands) + if Begins(c) then 1 else 0
    decreases |commands|
  {
    if commands == [] {
      assert commands + [c] == [c] && [c][1..] == [];
    } else {
      assert (commands + [c])[0] == commands[0] && (commands + [c])[1..] == commands[1..] + [c];
      BreaksAppend(commands[1..], c);
    }
  }

  lemma {:induction false} FinishesPrepend(e: RuntimeEvent, events: seq<RuntimeEvent>)
    ensures Finishes([e] + events) == Finishes(events) + if e.BreakFinished? then 1 else 0
    decreases |events|
  {
    if events == [] {
      assert [e] + events == [] + [e];
      FinishesAppend([], e);
    } else {
      assert ([e] + events)[..|events|] == [e] + events[..|events| - 1];
      FinishesPrepend(e, events[..|events| - 1]);
    }
  }

  /** Only without a start among them does it matter for the commands whether an overlay was up. */
  lemma {:induction false} StartSettlesUp(commands: seq<Command>)
    ensures UpAfter(true, commands) != UpAfter(false, commands) ==> BreaksAmong(commands) == ReplacementsAmong(commands)
    decreases |commands|
  {
    if commands != [] { StartSettlesUp(commands[1..]); }
  }

  /** An overlay that comes up was up before, or a start is on its way. */
  lemma {:induction false} UpNeedsStart(commands: seq<Command>)
    ensures UpAfter(false, commands) ==> BreaksAmong(commands) > 0
    decreases |commands|
  {
    if commands != [] { UpNeedsStart(commands[1..]); }
  }

  // ----- every step -----

  lemma OneCommand(c: Command)
    ensures BreaksAmong([c]) == (if Begins(c) then 1 else 0)
    ensures ReplacementsAmong([c]) == (if c.ReplaceActiveBreak? then 1 else 0)
  {
    assert [c][1..] == [];
  }

  lemma TurnNumbered(t: Traced, turn: Turn)
    requires t.loop.daemon.Valid() && Joint(t.loop.daemon) && Numbered(t)
    requires turn.input != Local(BreakStartFailed) && DaemonTurn(t.loop, turn).running
    ensures Numbered(AfterTurn(t, DaemonTurn(t.loop, turn).after))
  {
    var step := TakeTurn(t.loop.daemon, turn);
    InputConforms(Drained(t.loop.daemon), turn.env, turn.input);
    if step.after.commands == [] {
      assert t.loop.commands + [] == t.loop.commands;
    } else {
      var c := step.after.commands[0];
      assert step.after.commands == [c];
      OneCommand(c);
      UpAfterAppend(t.loop.core.active.Some?, t.loop.commands, c);
      UpAfterAppend(true, t.loop.commands, c);
      BreaksAppend(t.loop.commands, c);
    }
  }

  lemma OtherHeardNumbered(t: Traced)
    requires Numbered(t) && Events(t.loop) != []
    requires Events(t.loop)[0] != BreakFinished && Events(t.loop)[0] != Shutdown
    ensures Numbered(t.(loop := Heard(t.loop)))
  {
    assert Events(t.loop) == [Events(t.loop)[0]] + Events(t.loop)[1..];
    FinishesPrepend(Events(t.loop)[0], Events(t.loop)[1..]);
  }

  lemma ReportTaken(t: Traced)
    requires Numbered(t) && Shutdown !in Events(t.loop) && Events(t.loop) != [] && Events(t.loop)[0] == BreakFinished
    ensures t.reports != [] && |t.reports[1..]| == Finishes(Events(t.loop)[1..])
    ensures InOrder(t.reports[1..], t.onScreen, t.loop.core.active.Some?)
  {
    assert Events(t.loop) == [BreakFinished] + Events(t.loop)[1..];
    FinishesPrepend(BreakFinished, Events(t.loop)[1..]);
  }

  /** The daemon answers a finish with one command at most, and shows nothing then. */
  lemma FinishAnswered(l: Loop, turn: Turn)
    requires l.daemon.Valid() && turn.input == Local(BreakFinished)
    ensures var after := DaemonTurn(l, turn).after;
      && after.daemon.current.None? && after.core == l.core
      && BreaksAmong(after.daemon.commands) == 0 && BreaksAmong(after.commands) == BreaksAmong(l.commands)
  {
    var sent := TakeTurn(l.daemon, turn).after.commands;
    FinishedShowsNothing(l.daemon, turn.env);
    if sent == [] {
      assert l.commands + [] == l.commands;
    } else {
      assert sent == [sent[0]] && sent[0].FinishBreak? && sent[1..] == [];
      BreaksAppend(l.commands, sent[0]);
    }
  }

  lemma FinishHeardNumbered(t: Traced, env: Env)
    requires t.loop.daemon.Valid() && Numbered(t)
    requires Events(t.loop) != [] && Events(t.loop)[0] == BreakFinished
    ensures Numbered(Note(t, DaemonHears(env)))
  {
    if Shutdown in Events(t.loop) {
      assert Events(t.loop) == [BreakFinished] + Events(t.loop)[1..];
    } else {
      ReportTaken(t);
      FinishAnswered(Heard(t.loop), Turn(env, Local(BreakFinished)));
    }
  }

  lemma ToldNumbered(t: Traced, out: Outside)
    requires t.loop.daemon.Valid() && Linked(t.loop) && Numbered(t) && t.loop.commands != []
    ensures Numbered(Note(t, BackendTold(out)))
  {
    var command := t.loop.commands[0];
    var after := HandleCommand(t.loop.core, command, out);
    CommandKeepsShutdown(t.loop.core, command, out);
    if Shutdown in Events(t.loop) {
      StillQueued(Events(t.loop), after.poller.events, Shutdown);
    } else {
      CommandCarriedOut(t.loop.core, command, out);
      UpAfterMonotone(t.loop.commands[1..]);
    }
  }

  lemma ReportedInOrder(reports: seq<nat>, shown: nat)
    requires InOrder(reports, shown, true)
    ensures InOrder(reports + [shown], shown, false)
  {
  }

  /** The break just taken down is the one the daemon shows, but for replacements on their way. */
  lemma TakenDownNumbered(t: Traced, after: Core)
    requires Linked(t.loop) && Numbered(t) && Shutdown !in Events(t.loop) && TakesDown(t.loop.core, after)
    requires Finishes(after.poller.events) == Finishes(Events(t.loop)) + 1
    ensures Numbered(AfterReport(t.(loop := t.loop.(core := after))))
  {
    ReportedInOrder(t.reports, t.onScreen);
    StartSettlesUp(t.loop.commands);
  }

  lemma SampledNumbered(t: Traced, sample: Option<HelperSample>, out: Outside)
    requires t.loop.daemon.Valid() && Linked(t.loop) && Numbered(t)
    requires Move(t.loop, BackendSamples(sample, out)).running
    ensures Numbered(Note(t, BackendSamples(sample, out)))
  {
    var after := TakeSample(t.loop.core, sample, out).after;
    if Shutdown in Events(t.loop) {
      SampleKeepsEvents(t.loop.core, sample, out);
      StillQueued(Events(t.loop), after.poller.events, Shutdown);
    } else {
      SampleCounts(t.loop.core, sample, out);
      if TakesDown(t.loop.core, after) { TakenDownNumbered(t, after); }
    }
  }

  /** A sample reports a finish exactly when it takes the overlay down. */
  lemma SampleCounts(c: Core, sample: Option<HelperSample>, out: Outside)
    requires TakeSample(c, sample, out).ok
    ensures var after := TakeSample(c, sample, out).after;
      && Finishes(after.poller.events) == Finishes(c.poller.events) + (if TakesDown(c, after) then 1 else 0)
      && (after.active.Some? ==> c.active.Some?)
  {
    if c.active.None? {
      IdleSampleBalances(c, Sample(sample.value.idleFor, out.at.wall));
    } else if c.active.value.deferredFinish.Some? {
      DeferredSample(c, sample.value, out);
    } else {
      RunningSample(c, sample.value, out);
    }
  }

  lemma HeardNumbered(t: Traced, env: Env)
    requires t.loop.daemon.Valid() && Linked(t.loop) && Numbered(t)
    requires Events(t.loop) != [] && Move(t.loop, DaemonHears(env)).running
    ensures Numbered(Note(t, DaemonHears(env)))
  {
    var e := Events(t.loop)[0];
    assert FromBackend(e);
    if e == BreakFinished {
      FinishHeardNumbered(t, env);
    } else if e == Shutdown {
      ShutdownStops(t.loop, env);
    } else {
      OtherHeardNumbered(t);
      TurnNumbered(t.(loop := Heard(t.loop)), Turn(env, Local(e)));
    }
  }

  lemma NoteNumbered(t: Traced, s: LoopStep)
    requires t.loop.daemon.Valid() && Linked(t.loop) && Numbered(t)
    requires Possible(t.loop, s) && Move(t.loop, s).running
    ensures Numbered(Note(t, s))
  {
    match s
    case DaemonHears(env) => HeardNumbered(t, env);
    case DaemonTold(env, input) => TurnNumbered(t, Turn(env, input));
    case BackendTold(out) => ToldNumbered(t, out);
    case BackendSamples(sample, out) => SampledNumbered(t, sample, out);
  }

  // ----- whole runs -----

  lemma {:induction false} TraceNumbered(t: Traced, steps: seq<LoopStep>)
    requires t.loop.daemon.Valid() && Linked(t.loop) && Numbered(t) && ClosedLoop.Run(t.loop, steps).running
    ensures Linked(Trace(t, steps).loop) && Numbered(Trace(t, steps))
    decreases |steps|
  {
    if steps != [] && Possible(t.loop, steps[0]) {
      MoveLinked(t.loop, steps[0]);
      NoteNumbered(t, steps[0]);
      TraceNumbered(Note(t, steps[0]), steps[1..]);
    }
  }

  /** No queued report is about what has or will have an overlay. */
  lemma ShownIsNotReported(t: Traced, i: nat)
    requires Numbered(t) && Shutdown !in Events(t.loop) && i < |t.reports| && Up(t.loop)
    ensures t.reports[i] < t.issued
  {
    if t.loop.core.active.None? { UpNeedsStart(t.loop.commands); }
  }

  lemma NextReportIff(t: Traced)
    requires t.loop.daemon.Valid() && Linked(t.loop) && Numbered(t) && Shutdown !in Events(t.loop)
    requires Events(t.loop) != [] && Events(t.loop)[0] == BreakFinished && t.loop.daemon.current.Some?
    ensures t.reports != []
    ensures t.issued in t.reports <==> !Up(t.loop) && t.unseen == 0
    ensures t.reports[0] == t.issued <==> !Up(t.loop) && t.unseen == 0 && Finishes(Events(t.loop)) == 1
  {
    ReportTaken(t);
    if Up(t.loop) {
      forall i | 0 <= i < |t.reports| ensures t.reports[i] != t.issued { ShownIsNotReported(t, i); }
    } else {
      assert forall i | 0 <= i < |t.reports| :: t.reports[i] <= t.reports[|t.reports| - 1];
    }
  }

  function FromStart(schedule: Schedule, localPeer: Option<PeerId>, interval: nat, lock: MacOSLock): Traced
    requires ValidSchedule(schedule)
  {
    Traced(Start(schedule, localPeer, interval, lock), 0, 0, 0, [], 0)
  }

  /**
   * From start-up, over every interleaving that does not ask the daemon to stop: hearing a reported
   * finish ends the break then shown. That break has been reported over exactly if no overlay is or
   * will be up, no replacement was on its way when the last report was queued and none was sent since;
   * and the report heard is the one about it exactly if, besides, no other is queued.
   */
  lemma ReportIsForShownIff(
    schedule: Schedule, localPeer: Option<PeerId>, interval: nat, lock: MacOSLock, steps: seq<LoopStep>, env: Env)
    requires ValidSchedule(schedule)
    requires ClosedLoop.Run(Start(schedule, localPeer, interval, lock), steps).running
    requires var l := ClosedLoop.Run(Start(schedule, localPeer, interval, lock), steps).after;
      l.daemon.current.Some? && Shutdown !in Events(l) && Events(l) != [] && Events(l)[0] == BreakFinished
    ensures var t := Trace(FromStart(schedule, localPeer, interval, lock), steps);
      && Move(t.loop, DaemonHears(env)).after.daemon.current.None?
      && t.reports != []
      && (t.issued in t.reports <==> !Up(t.loop) && t.unseen == 0)
      && (t.reports[0] == t.issued <==> !Up(t.loop) && t.unseen == 0 && Finishes(Events(t.loop)) == 1)
  {
    var t := FromStart(schedule, localPeer, interval, lock);
    TraceNumbered(t, steps);
    var end := Trace(t, steps);
    FinishedShowsNothing(end.loop.daemon, env);
    NextReportIff(end);
  }

  /** And once all commands are carried out, an overlay is that of the break the daemon began last. */
  lemma OverlayIsOfLastBreak(
    schedule: Schedule, localPeer: Option<PeerId>, interval: nat, lock: MacOSLock, steps: seq<LoopStep>)
    requires ValidSchedule(schedule)
    requires ClosedLoop.Run(Start(schedule, localPeer, interval, lock), steps).running
    ensures var t := Trace(FromStart(schedule, localPeer, interval, lock), steps);
      t.loop.commands == [] && t.loop.core.active.Some? && Shutdown !in Events(t.loop) ==> t.onScreen == t.issued
  {
    TraceNumbered(FromStart(schedule, localPeer, interval, lock), steps);
  }
}
