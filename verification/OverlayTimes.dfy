/**
 * When an overlay comes down, with a clock beside the daemon, the backend and the queues between them: at
 * the end of the break it shows, later only by as long as its command was on its way.
 */
module OverlayTimes {
  import opened Base
  import opened Schedules
  import opened RuntimeModel
  import opened RuntimeRuns
  import opened MacHelperModel
  import opened ClosedLoop
  import opened BreakTimes
  import OverlayContent

  /**
   * When each command on its way was sent, when the daemon began to show its break, at what moment the
   * command that brought up the overlay meant it to end, and how long that command took.
   */
  datatype Clocked = Clocked(loop: Loop, sentAt: seq<nat>, begun: nat, aim: Option<nat>, delay: nat)

  /** A step and the moment it happens, in nanoseconds. */
  datatype TimedStep = TimedStep(step: LoopStep, now: nat)

  predicate Begins(c: Command) { c.StartBreak? || c.ReplaceActiveBreak? }

  /** The clocks of daemon and backend show that moment, the daemon's in whole milliseconds. */
  predicate OnTime(s: TimedStep) {
    match s.step
    case DaemonHears(env) => Millis(env.laterNow) <= s.now < Millis(env.laterNow + 1)
    case DaemonTold(env, _) => Millis(env.laterNow) <= s.now < Millis(env.laterNow + 1)
    case BackendTold(out) => out.at.wall == s.now
    case BackendSamples(_, out) => out.at.wall == s.now
  }

  /** The moment an overlay is meant to end after a command sent at a given moment. */
  function AimWith(aim: Option<nat>, c: Command, at: nat): Option<nat> {
    match c
    case StartBreak(b) => Some(at + b.duration)
    case ReplaceActiveBreak(_, remaining, _) => if aim.Some? then Some(at + remaining) else None
    case RequestLockAfterCurrentBreak => aim
    case FinishBreak(_) => None
    case ClearBreak => None
  }

  function AimAfter(aim: Option<nat>, commands: seq<Command>, sentAt: seq<nat>): Option<nat>
    requires |sentAt| == |commands|
    decreases |commands|
  {
    if commands == [] then aim else AimAfter(AimWith(aim, commands[0], sentAt[0]), commands[1..], sentAt[1..])
  }

  function Stamped(t: Clocked, l: Loop, now: nat): Clocked {
    var sent := l.daemon.commands;
    t.(loop := l, sentAt := t.sentAt + seq(|sent|, _ => now),
       begun := if sent != [] && Begins(sent[|sent| - 1]) then now else t.begun)
  }

  function Note(t: Clocked, s: TimedStep): (after: Clocked)
    requires t.loop.daemon.Valid() && Possible(t.loop, s.step) && |t.sentAt| == |t.loop.commands|
    ensures after.loop == Move(t.loop, s.step).after && |after.sentAt| == |after.loop.commands|
  {
    var l := Move(t.loop, s.step).after;
    match s.step
    case DaemonHears(_) => Stamped(t, l, s.now)
    case DaemonTold(_, _) => Stamped(t, l, s.now)
    case BackendTold(_) =>
      var c := t.loop.commands[0];
      var shown := Begins(c) && AimWith(t.aim, c, t.sentAt[0]).Some?;
      t.(loop := l, sentAt := t.sentAt[1..], aim := AimWith(t.aim, c, t.sentAt[0]),
         delay := if shown then Base.SaturatingSub(s.now, t.sentAt[0]) else t.delay)
    case BackendSamples(_, _) => t.(loop := l, aim := if l.core.active.None? then None else t.aim)
  }

  // ----- what is kept -----

  /** The end of a break by its start and duration, to the millisecond; of one yet to begin, its duration from now. */
  predicate Ends(aim: nat, startedAtMs: nat, duration: nat, begun: nat) {
    && aim < Millis(startedAtMs + 1) + duration
    && (Millis(startedAtMs) <= begun ==> Millis(startedAtMs) + duration <= aim)
    && (begun < Millis(startedAtMs) ==> aim == begun + duration)
  }

  predicate EndsBreak(aim: Option<nat>, r: Runtime, begun: nat) {
    aim.Some? ==>
      && r.current.Some? && FindRule(r.scheduler.Rules(), r.current.value.name).Some?
      && Ends(aim.value, r.current.value.startedAtMs,
              FindRule(r.scheduler.Rules(), r.current.value.name).value.duration, begun)
  }

  /** The overlay up now ends when its command meant it to, later by what the command took. */
  predicate EndsOverlay(aim: Option<nat>, delay: nat, c: Core) {
    && (aim.Some? <==> c.active.Some?)
    && (aim.Some? ==> c.active.value.deadline.endsAt == aim.value + delay)
  }

  predicate Sent(t: Clocked, now: nat) {
    |t.sentAt| == |t.loop.commands| && forall i | 0 <= i < |t.sentAt| :: t.sentAt[i] <= now
  }

  predicate OnSchedule(t: Clocked, now: nat) {
    && Sent(t, now)
    && (Shutdown in Events(t.loop) ||
        (&& EndsOverlay(t.aim, t.delay, t.loop.core)
         && EndsBreak(AimAfter(t.aim, t.loop.commands, t.sentAt), t.loop.daemon, t.begun)))
  }

  lemma {:induction false} AimAfterAppend(aim: Option<nat>, commands: seq<Command>, sentAt: seq<nat>, c: Command, at: nat)
    requires |sentAt| == |commands|
    ensures AimAfter(aim, commands + [c], sentAt + [at]) == AimWith(AimAfter(aim, commands, sentAt), c, at)
    decreases |commands|
  {
    if commands == [] {
      assert commands + [c] == [c] && [c][1..] == [] && sentAt + [at] == [at] && [at][1..] == [];
    } else {
      assert (commands + [c])[0] == commands[0] && (commands + [c])[1..] == commands[1..] + [c];
      assert (sentAt + [at])[0] == sentAt[0] && (sentAt + [at])[1..] == sentAt[1..] + [at];
      AimAfterAppend(AimWith(aim, commands[0], sentAt[0]), commands[1..], sentAt[1..], c, at);
    }
  }

  /** Once an overlay is gone only a start brings one, whatever was there. */
  lemma {:induction false} AimGone(aim: Option<nat>, commands: seq<Command>, sentAt: seq<nat>)
    requires |sentAt| == |commands|
    ensures AimAfter(None, commands, sentAt).Some? ==> AimAfter(aim, commands, sentAt) == AimAfter(None, commands, sentAt)
    decreases |commands|
  {
    if commands != [] { AimGone(AimWith(aim, commands[0], sentAt[0]), commands[1..], sentAt[1..]); }
  }

  // ----- every step -----

  lemma LeavesEnds(remaining: nat, startedAtMs: nat, nowMs: nat, duration: nat, now: nat)
    requires Leaves(remaining, startedAtMs, nowMs, duration) && Millis(nowMs) <= now < Millis(nowMs + 1)
    ensures Ends(now + remaining, startedAtMs, duration, now)
  {
  }

  lemma CommandEnds(aim: Option<nat>, before: Runtime, after: Runtime, begun: nat, c: Command, nowMs: nat, now: nat)
    requires EndsBreak(aim, before, begun) && after.scheduler.schedule == before.scheduler.schedule
    requires Timely(c, after, nowMs) && OverlayContent.Tells(before.current, c, after.current)
    requires Millis(nowMs) <= now < Millis(nowMs + 1)
    ensures EndsBreak(AimWith(aim, c, now), after, if Begins(c) then now else begun)
  {
    if Begins(c) {
      var remaining := if c.StartBreak? then c.scheduledBreak.duration else c.remaining;
      var shown := after.current.value;
      var rule := FindRule(after.scheduler.Rules(), shown.name).value;
      LeavesEnds(remaining, shown.startedAtMs, nowMs, rule.duration, now);
    }
  }

  lemma TurnEnds(t: Clocked, turn: Turn, now: nat)
    requires t.loop.daemon.Valid() && Joint(t.loop.daemon) && turn.input != Local(BreakStartFailed)
    requires |t.sentAt| == |t.loop.commands| && DaemonTurn(t.loop, turn).running
    requires Millis(turn.env.laterNow) <= now < Millis(turn.env.laterNow + 1)
    requires EndsBreak(AimAfter(t.aim, t.loop.commands, t.sentAt), t.loop.daemon, t.begun)
    ensures var l := DaemonTurn(t.loop, turn).after;
      var after := Stamped(t, l, now);
      |after.sentAt| == |l.commands| && EndsBreak(AimAfter(after.aim, l.commands, after.sentAt), l.daemon, after.begun)
  {
    var step := TakeTurn(t.loop.daemon, turn);
    OverlayContent.TurnIsTruthful(t.loop.daemon, turn);
    TurnIsTimely(t.loop.daemon, turn);
    if step.after.commands == [] {
      assert t.loop.commands + [] == t.loop.commands && t.sentAt + [] == t.sentAt;
    } else {
      assert seq(1, _ => now) == [now];
      var c := step.after.commands[0];
      assert step.after.commands == [c];
      AimAfterAppend(t.aim, t.loop.commands, t.sentAt, c, now);
      CommandEnds(AimAfter(t.aim, t.loop.commands, t.sentAt), t.loop.daemon, step.after, t.begun, c,
                  turn.env.laterNow, now);
    }
  }

  lemma TurnOnSchedule(t: Clocked, turn: Turn, before: nat, now: nat)
    requires t.loop.daemon.Valid() && Joint(t.loop.daemon) && turn.input != Local(BreakStartFailed)
    requires OnSchedule(t, before) && before <= now && DaemonTurn(t.loop, turn).running
    requires Millis(turn.env.laterNow) <= now < Millis(turn.env.laterNow + 1)
    ensures OnSchedule(Stamped(t, DaemonTurn(t.loop, turn).after, now), now)
  {
    if Shutdown !in Events(t.loop) { TurnEnds(t, turn, now); }
  }

  lemma HearingOnSchedule(t: Clocked, env: Env, before: nat, now: nat)
    requires t.loop.daemon.Valid() && Linked(t.loop) && OnSchedule(t, before) && before <= now
    requires Events(t.loop) != [] && Move(t.loop, DaemonHears(env)).running
    requires Millis(env.laterNow) <= now < Millis(env.laterNow + 1)
    ensures OnSchedule(Note(t, TimedStep(DaemonHears(env), now)), now)
  {
    var e := Events(t.loop)[0];
    assert FromBackend(e) && Events(t.loop) == [e] + Events(t.loop)[1..];
    if e == Shutdown { ShutdownStops(t.loop, env); }
    TurnOnSchedule(t.(loop := Heard(t.loop)), Turn(env, Local(e)), before, now);
  }

  /** Carrying out a command at once would end the overlay when the command means it to. */
  lemma CommandEndsOverlay(t: Clocked, out: Outside)
    requires t.loop.daemon.Valid() && |t.sentAt| == |t.loop.commands| && t.loop.commands != [] && t.sentAt[0] <= out.at.wall
    requires EndsOverlay(t.aim, t.delay, t.loop.core)
    ensures var after := Note(t, TimedStep(BackendTold(out), out.at.wall));
      Shutdown in Events(after.loop) || EndsOverlay(after.aim, after.delay, after.loop.core)
  {
  }

  lemma ToldOnSchedule(t: Clocked, out: Outside, before: nat)
    requires t.loop.daemon.Valid() && OnSchedule(t, before) && before <= out.at.wall && t.loop.commands != []
    ensures OnSchedule(Note(t, TimedStep(BackendTold(out), out.at.wall)), out.at.wall)
  {
    var after := HandleCommand(t.loop.core, t.loop.commands[0], out);
    CommandKeepsShutdown(t.loop.core, t.loop.commands[0], out);
    if Shutdown in Events(t.loop) {
      StillQueued(Events(t.loop), after.poller.events, Shutdown);
    } else {
      CommandEndsOverlay(t, out);
    }
  }

  /** A sample never moves the end of an overlay. */
  lemma SampleKeepsDeadline(c: Core, sample: Option<HelperSample>, out: Outside)
    ensures var after := TakeSample(c, sample, out).after;
      after.active.Some? ==> c.active.Some? && after.active.value.deadline == c.active.value.deadline
  {
  }

  lemma SampledOnSchedule(t: Clocked, sample: Option<HelperSample>, out: Outside, before: nat, now: nat)
    requires t.loop.daemon.Valid() && OnSchedule(t, before) && before <= now
    ensures OnSchedule(Note(t, TimedStep(BackendSamples(sample, out), now)), now)
  {
    var after := TakeSample(t.loop.core, sample, out).after;
    SampleKeepsEvents(t.loop.core, sample, out);
    SampleKeepsDeadline(t.loop.core, sample, out);
    if Shutdown in Events(t.loop) { StillQueued(Events(t.loop), after.poller.events, Shutdown); }
    AimGone(t.aim, t.loop.commands, t.sentAt);
  }

  lemma StepOnSchedule(t: Clocked, s: TimedStep, before: nat)
    requires t.loop.daemon.Valid() && Linked(t.loop) && OnSchedule(t, before) && before <= s.now && OnTime(s)
    requires Possible(t.loop, s.step) && Move(t.loop, s.step).running
    ensures OnSchedule(Note(t, s), s.now)
  {
    match s.step
    case DaemonHears(env) => HearingOnSchedule(t, env, before, s.now);
    case DaemonTold(env, input) => TurnOnSchedule(t, Turn(env, input), before, s.now);
    case BackendTold(out) => ToldOnSchedule(t, out, before);
    case BackendSamples(sample, out) => SampledOnSchedule(t, sample, out, before, s.now);
  }

  // ----- whole runs -----

  /** Steps at moments that do not go back, with clocks that show them. */
  predicate InTime(steps: seq<TimedStep>, from: nat) {
    steps == [] || (from <= steps[0].now && OnTime(steps[0]) && InTime(steps[1..], steps[0].now))
  }

  predicate Going(t: Clocked, steps: seq<TimedStep>)
    requires t.loop.daemon.Valid() && |t.sentAt| == |t.loop.commands|
    decreases |steps|
  {
    steps == [] ||
    (&& Possible(t.loop, steps[0].step) && Move(t.loop, steps[0].step).running
     && Going(Note(t, steps[0]), steps[1..]))
  }

  /** The state after steps that are all possible and leave both running. */
  function Follow(t: Clocked, steps: seq<TimedStep>): (after: Clocked)
    requires t.loop.daemon.Valid() && |t.sentAt| == |t.loop.commands| && Going(t, steps)
    ensures after.loop.daemon.Valid()
    decreases |steps|
  {
    if steps == [] then t else Follow(Note(t, steps[0]), steps[1..])
  }

  function LastMoment(steps: seq<TimedStep>, from: nat): nat {
    if steps == [] then from else LastMoment(steps[1..], steps[0].now)
  }

  lemma {:induction false} RunOnSchedule(t: Clocked, steps: seq<TimedStep>, from: nat)
    requires t.loop.daemon.Valid() && Linked(t.loop) && OnSchedule(t, from) && Going(t, steps) && InTime(steps, from)
    ensures OnSchedule(Follow(t, steps), LastMoment(steps, from))
    decreases |steps|
  {
    if steps != [] {
      MoveLinked(t.loop, steps[0].step);
      StepOnSchedule(t, steps[0], from);
      RunOnSchedule(Note(t, steps[0]), steps[1..], steps[0].now);
    }
  }

  function FromStart(schedule: Schedule, localPeer: Option<PeerId>, interval: nat, lock: MacOSLock): Clocked
    requires ValidSchedule(schedule)
  {
    Clocked(Start(schedule, localPeer, interval, lock), [], 0, None, 0)
  }

  /**
   * From start-up, over every interleaving with clocks that agree: an overlay that is up, with no command
   * on its way and no stop asked for, comes down at the end of the break the daemon shows, which is its
   * start plus the duration of its rule to the millisecond, and later only by the time its command took.
   */
  lemma OverlayEndsWithBreak(
    schedule: Schedule, localPeer: Option<PeerId>, interval: nat, lock: MacOSLock, steps: seq<TimedStep>, from: nat)
    requires ValidSchedule(schedule) && InTime(steps, from)
    requires Going(FromStart(schedule, localPeer, interval, lock), steps)
    ensures var t := Follow(FromStart(schedule, localPeer, interval, lock), steps);
      t.loop.commands == [] && Shutdown !in Events(t.loop) && t.loop.core.active.Some? ==> EndsInTime(t)
  {
    RunOnSchedule(FromStart(schedule, localPeer, interval, lock), steps, from);
  }

  predicate EndsInTime(t: Clocked) {
    && t.loop.core.active.Some? && t.loop.daemon.current.Some?
    && var shown := t.loop.daemon.current.value;
    && var rule := FindRule(t.loop.daemon.scheduler.Rules(), shown.name);
    && rule.Some? && t.delay <= t.loop.core.active.value.deadline.endsAt
    && Ends(t.loop.core.active.value.deadline.endsAt - t.delay, shown.startedAtMs, rule.value.duration, t.begun)
  }

  /**
   * Two machines with the same rules that show the same break: their overlays come down within a
   * millisecond of each other, but for what the commands took.
   */
  lemma OverlaysEndTogether(a: Clocked, b: Clocked)
    requires EndsInTime(a) && EndsInTime(b)
    requires a.loop.daemon.scheduler.schedule == b.loop.daemon.scheduler.schedule
    requires a.loop.daemon.current.value.name == b.loop.daemon.current.value.name
    requires a.loop.daemon.current.value.startedAtMs == b.loop.daemon.current.value.startedAtMs
    requires Millis(a.loop.daemon.current.value.startedAtMs) <= a.begun
    requires Millis(a.loop.daemon.current.value.startedAtMs) <= b.begun
    ensures var mine, theirs := a.loop.core.active.value.deadline.endsAt, b.loop.core.active.value.deadline.endsAt;
      -1_000_000 < (mine - a.delay) - (theirs - b.delay) < 1_000_000
  {
  }
}
