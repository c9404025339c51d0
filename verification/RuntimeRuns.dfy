/**
 * Whole runs of the daemon: what holds after every input, and the grammar of the commands it
 * sends to the backend.
 */
module RuntimeRuns {
  import opened Base
  import opened Schedules
  import opened Protocol
  import opened RuntimeModel
  import S = SchedulerModel

  /** One input, together with what the outside supplies while it is handled. */
  datatype Turn = Turn(env: Env, input: Input)

  /** The outputs of the previous input have been taken away. */
  function Drained(r: Runtime): Runtime { r.(commands := [], sent := [], ui := []) }

  function TakeTurn(r: Runtime, turn: Turn): (step: Step)
    requires r.Valid()
    ensures step.after.Valid() && step.after.scheduler.schedule == r.scheduler.schedule
    ensures step.after.localPeer == r.localPeer
  {
    HandleInput(Drained(r), turn.env, turn.input)
  }

  /** Handles inputs until one of them stops the daemon. */
  function Run(r: Runtime, turns: seq<Turn>): (step: Step)
    requires r.Valid()
    ensures step.after.Valid() && step.after.scheduler.schedule == r.scheduler.schedule
    decreases |turns|
  {
    if turns == [] then Step(r, true)
    else
      var first := TakeTurn(r, turns[0]);
      if first.running then Run(first.after, turns[1..]) else first
  }

  /**
   * The three things the runtime keeps in step with its scheduler: a break is shown exactly while
   * one is pending, breaks are disabled exactly when the scheduler's mode is, and a notice is only
   * up while scheduled breaks are coming.
   */
  predicate Joint(r: Runtime) {
    && (r.current.Some? <==> r.scheduler.state.Pending?)
    && (r.disableMode.Enabled? <==> r.scheduler.Mode() == S.Active)
    && (r.notice.Some? ==> r.scheduler.state == S.Ready(S.Active))
  }

  // ----- the command stream -----

  /** What the backend sees and says about its overlay. */
  datatype Item = Sent(command: Command) | StartFailed

  predicate Opens(item: Item) { item.Sent? && item.command.StartBreak? }

  predicate Closes(item: Item) { item.StartFailed? || item.command.FinishBreak? || item.command.ClearBreak? }

  function OpenAfter(open: bool, item: Item): bool {
    if Opens(item) then true else if Closes(item) then false else open
  }

  /** Each input sends at most one command, and only one the overlay state allows. */
  predicate Conforms(before: Option<CurrentBreak>, step: Step, prior: seq<Command>) {
    if |step.after.commands| == |prior| then
      step.after.commands == prior && (step.running ==> step.after.current.Some? == before.Some?)
    else
      && |step.after.commands| == |prior| + 1 && step.after.commands[..|prior|] == prior
      && var c := step.after.commands[|prior|];
         (c.StartBreak? <==> before.None?)
         && (step.running ==> step.after.current.Some? == OpenAfter(before.Some?, Sent(c)))
  }

  /** What a handler owes: the joint invariant again, and a command the overlay state allows. */
  predicate Keeps(r: Runtime, step: Step) { Joint(step.after) && Conforms(r.current, step, r.commands) }

  /** Between the scheduler starting a break and the runtime showing it. */
  predicate JustStarted(r: Runtime) {
    && r.current.None? && r.scheduler.state.Pending?
    && (r.disableMode.Enabled? <==> r.scheduler.Mode() == S.Active)
    && (r.notice.Some? ==> r.scheduler.Mode() == S.Active)
  }

  lemma StartBreakAtKeeps(r: Runtime, env: Env, b: ScheduledBreak, at: nat, propagation: Propagation)
    requires JustStarted(r)
    ensures Keeps(r, StartBreakAt(r, env, b, at, propagation))
  {
  }

  lemma AdvanceActiveKeeps(r: Runtime, env: Env, elapsed: nat, propagation: Propagation)
    requires r.Valid() && Joint(r)
    ensures Keeps(r, AdvanceActive(r, env, elapsed, propagation))
  {
    var o := S.AdvanceActive(r.scheduler, elapsed, env.pick);
    if o.started.Some? {
      StartBreakAtKeeps(ClearNotice(r.(scheduler := o.after)), env, o.started.value, env.startNow, propagation);
    }
  }

  lemma ObserveActiveKeeps(r: Runtime, env: Env, elapsed: nat, a: Propagation, b: Propagation)
    requires r.Valid() && Joint(r)
    ensures Keeps(r, ObserveActive(r, env, elapsed, a, b))
  {
    var tracked := BroadcastIfNeeded(ResetIdleTracking(r), a, ActiveTimeElapsed(elapsed));
    AdvanceActiveKeeps(tracked.(activity := Spend(r.activity, elapsed)), env, Credited(r.activity, elapsed), b);
  }

  lemma StartManualKeeps(r: Runtime, env: Env, name: string, propagation: Propagation)
    requires r.Valid() && Joint(r)
    ensures Keeps(r, StartManualBreak(r, env, name, propagation))
  {
    var o := S.StartManualBreak(r.scheduler, name, env.pick);
    if o.started.Some? {
      StartBreakAtKeeps(r.(scheduler := o.after), env, o.started.value, env.startNow, propagation);
    }
  }

  lemma StartSyncedKeeps(r: Runtime, env: Env, start: SyncedStart)
    requires Joint(r) && r.current.None?
    ensures Keeps(r, StartSyncedBreak(r, env, start))
  {
    var o := S.StartActiveSyncedBreak(r.scheduler, start.name, start.origin, env.pick);
    if o.started.Some? {
      var lock := if start.lockAfter.Some? then start.lockAfter.value else o.started.value.autolock;
      StartBreakAtKeeps(r.(scheduler := S.MergeSyncedPosition(o.after, start.position)), env,
        o.started.value.(message := start.message, autolock := lock), start.startedAtMs, Suppress);
    }
  }

  lemma ReplaceKeeps(r: Runtime, env: Env, b: ScheduledBreak, at: nat)
    requires Joint(r) && r.current.Some?
    ensures Keeps(r, ReplaceCurrentBreak(r, env, b, at))
  {
  }

  lemma SyncedStartKeeps(r: Runtime, env: Env, peer: PeerId, start: SyncedStart)
    requires Joint(r)
    ensures Keeps(r, ApplySyncedBreakStart(r, env, peer, start))
  {
    if r.current.None? {
      StartSyncedKeeps(r, env, start);
    } else {
      var o := S.ReplacementSyncedBreak(r.scheduler, start.name, start.origin, env.pick);
      if o.started.Some? {
        var lock := ReplacedLock(start, r.current.value, o.started.value.autolock);
        ReplaceKeeps(r.(scheduler := S.MergeSyncedPosition(o.after, start.position)), env,
          o.started.value.(message := start.message, autolock := lock), start.startedAtMs);
      }
    }
  }

  lemma ResetKeeps(r: Runtime, propagation: Propagation)
    requires Joint(r)
    ensures Keeps(r, Step(ApplySchedulerReset(r, propagation), true))
  {
  }

  lemma DisableKeeps(r: Runtime, env: Env, duration: nat, propagation: Propagation)
    requires Joint(r)
    ensures Keeps(r, DisableForDuration(r, env, duration, propagation))
    ensures Keeps(r, DisableUntil(r, env, propagation))
  {
  }

  lemma BreakControlKeeps(r: Runtime, env: Env, propagation: Propagation)
    requires Joint(r)
    ensures Keeps(r, Finish(r, env)) && Keeps(r, RequestLock(r, env, propagation))
    ensures Keeps(r, Step(EnableScheduler(r, propagation), true))
  {
  }

  /** Inputs that tell of passing time. */
  lemma ClockConforms(r: Runtime, env: Env, e: RuntimeEvent)
    requires r.Valid() && Joint(r) && (e.ActiveElapsed? || e.IdleElapsed? || e.WallClockElapsed?)
    ensures Keeps(r, HandleEvent(r, env, e))
  {
    match e
    case ActiveElapsed(elapsed) => ObserveActiveKeeps(r, env, elapsed, Forward, Forward);
    case IdleElapsed(elapsed) =>
      ResetKeeps(r.(breakCountIdleReset := IdleAdvance(r.breakCountIdleReset, elapsed),
                    activeTimeIdleReset := IdleAdvance(r.activeTimeIdleReset, elapsed)), Forward);
    case WallClockElapsed(elapsed) =>
      BreakControlKeeps(r.(activity := CombinedActivity(elapsed, true)), env, Suppress);
  }

  lemma LocalConforms(r: Runtime, env: Env, e: RuntimeEvent)
    requires r.Valid() && Joint(r)
    ensures Joint(HandleEvent(r, env, e).after)
    ensures !e.BreakStartFailed? ==> Conforms(r.current, HandleEvent(r, env, e), r.commands)
  {
    if e.ActiveElapsed? || e.IdleElapsed? || e.WallClockElapsed? {
      ClockConforms(r, env, e);
    } else {
      match e
      case StartManual(name) => StartManualKeeps(r, env, name, Forward);
      case DisableBreaks(For(duration)) => DisableKeeps(r, env, duration, Forward);
      case DisableBreaks(UntilRestartRequest) => DisableKeeps(r, env, 0, Forward);
      case BreakFinished => BreakControlKeeps(r, env, Forward);
      case LockAfterBreak => BreakControlKeeps(r, env, Forward);
      case EnableBreaks => BreakControlKeeps(r, env, Forward);
      case _ =>
    }
  }

  lemma SyncConforms(r: Runtime, env: Env, peer: PeerId, e: SyncEvent)
    requires r.Valid() && Joint(r)
    ensures Keeps(r, HandleSyncEvent(r, env, peer, e))
  {
    match e
    case ActiveTimeElapsed(elapsed) => ObserveActiveKeeps(r, env, elapsed, Suppress, Forward);
    case SchedulerState(slot, elapsed, last, activeBreak) =>
      if activeBreak.Some? {
        var b := activeBreak.value;
        SyncedStartKeeps(r, env, peer,
          SyncedStart(b.name, b.message, b.startedAtMs, b.origin, Position(slot, elapsed, last), Some(b.lockAfter)));
      }
    case BreakStarted(name, message, at, origin, position) =>
      SyncedStartKeeps(r, env, peer, SyncedStart(name, message, at, origin, position, None));
    case SchedulerReset => ResetKeeps(r, Suppress);
    case DisableFor(duration) => DisableKeeps(r, env, duration, Suppress);
    case DisableUntilRestart => DisableKeeps(r, env, 0, Suppress);
    case Enable => BreakControlKeeps(r, env, Suppress);
    case LockAfterCurrentBreak => BreakControlKeeps(r, env, Suppress);
  }

  lemma InputConforms(r: Runtime, env: Env, input: Input)
    requires r.Valid() && Joint(r)
    ensures Joint(HandleInput(r, env, input).after)
    ensures input != Local(BreakStartFailed) ==> Conforms(r.current, HandleInput(r, env, input), r.commands)
  {
    match input
    case Local(e) => LocalConforms(r, env, e);
    case Sync(Domain(peer, e)) => SyncConforms(r, env, peer, e);
    case _ =>
  }

  lemma TurnKeepsJoint(r: Runtime, turn: Turn)
    requires r.Valid() && Joint(r)
    ensures Joint(TakeTurn(r, turn).after)
  {
    InputConforms(Drained(r), turn.env, turn.input);
  }

  /** The joint invariant after any run from a state that has it, stopped or not. */
  lemma {:induction false} RunKeepsJoint(r: Runtime, turns: seq<Turn>)
    requires r.Valid() && Joint(r)
    ensures Joint(Run(r, turns).after)
    decreases |turns|
  {
    if turns != [] {
      TurnKeepsJoint(r, turns[0]);
      if TakeTurn(r, turns[0]).running {
        RunKeepsJoint(TakeTurn(r, turns[0]).after, turns[1..]);
      }
    }
  }

  /** From start-up on, a break is shown exactly when the scheduler is waiting for its end. */
  lemma CurrentBreakIffPending(schedule: Schedule, localPeer: Option<PeerId>, turns: seq<Turn>)
    requires ValidSchedule(schedule)
    ensures var r := Run(New(schedule, localPeer), turns).after;
      && (r.current.Some? <==> r.scheduler.state.Pending?)
      && (r.disableMode.Enabled? <==> r.scheduler.Mode() == S.Active)
      && (r.notice.Some? ==> r.scheduler.state == S.Ready(S.Active))
  {
    RunKeepsJoint(New(schedule, localPeer), turns);
  }

  /** A break is opened only when none is open, and touched or closed only when one is. */
  predicate Grammatical(open: bool, items: seq<Item>)
    decreases |items|
  {
    items == [] ||
    (&& (Opens(items[0]) ==> !open)
     && (items[0].Sent? && !Opens(items[0]) ==> open)
     && Grammatical(OpenAfter(open, items[0]), items[1..]))
  }

  /** Outputs of one input; a failed start is something the backend reports, not a command. */
  function Items(turn: Turn, commands: seq<Command>): seq<Item> {
    (if turn.input == Local(BreakStartFailed) then [StartFailed] else []) +
    seq(|commands|, i requires 0 <= i < |commands| => Sent(commands[i]))
  }

  function Trace(r: Runtime, turns: seq<Turn>): seq<Item>
    requires r.Valid()
    decreases |turns|
  {
    if turns == [] then []
    else
      var first := TakeTurn(r, turns[0]);
      Items(turns[0], first.after.commands) +
      if first.running then Trace(first.after, turns[1..]) else []
  }

  /** The overlay after at most one item. */
  function OpenAfterAll(open: bool, items: seq<Item>): bool { if items == [] then open else OpenAfter(open, items[0]) }

  lemma TurnConforms(r: Runtime, turn: Turn)
    requires r.Valid() && Joint(r)
    ensures var step := TakeTurn(r, turn);
      && Grammatical(r.current.Some?, Items(turn, step.after.commands))
      && |Items(turn, step.after.commands)| <= 1
      && (step.running ==> step.after.current.Some? == OpenAfterAll(r.current.Some?, Items(turn, step.after.commands)))
  {
    var step := TakeTurn(r, turn);
    var items := Items(turn, step.after.commands);
    if turn.input == Local(BreakStartFailed) {
      assert items == [StartFailed];
    } else {
      InputConforms(Drained(r), turn.env, turn.input);
      if step.after.commands == [] {
        assert items == [];
      } else {
        assert items == [Sent(step.after.commands[0])];
      }
    }
  }

  lemma GrammaticalConcat(open: bool, items: seq<Item>, rest: seq<Item>)
    requires |items| <= 1 && Grammatical(open, items) && Grammatical(OpenAfterAll(open, items), rest)
    ensures Grammatical(open, items + rest)
  {
    if items == [] {
      assert items + rest == rest;
    } else {
      assert (items + rest)[1..] == rest && (items + rest)[0] == items[0];
    }
  }

  /** The command stream of any run follows the grammar, even with duplicated finish events. */
  lemma {:induction false} RunIsGrammatical(r: Runtime, turns: seq<Turn>)
    requires r.Valid() && Joint(r)
    ensures Grammatical(r.current.Some?, Trace(r, turns))
    decreases |turns|
  {
    if turns != [] {
      var step := TakeTurn(r, turns[0]);
      var items := Items(turns[0], step.after.commands);
      TurnConforms(r, turns[0]);
      if step.running {
        TurnKeepsJoint(r, turns[0]);
        RunIsGrammatical(step.after, turns[1..]);
        GrammaticalConcat(r.current.Some?, items, Trace(step.after, turns[1..]));
      } else {
        assert items + [] == items;
      }
    }
  }

  function Count(items: seq<Item>, open: bool): nat {
    if items == [] then 0
    else (if (if open then Opens(items[0]) else Closes(items[0]) && items[0].Sent?) then 1 else 0) + Count(items[1..], open)
  }

  /** In a grammatical stream no break is closed twice: commands that close never outnumber those that open. */
  lemma {:induction false} ClosesNeverOutnumberOpens(open: bool, items: seq<Item>)
    requires Grammatical(open, items)
    ensures Count(items, false) <= Count(items, true) + if open then 1 else 0
    decreases |items|
  {
    if items != [] {
      ClosesNeverOutnumberOpens(OpenAfter(open, items[0]), items[1..]);
    }
  }

  /** Over a whole daemon run, the backend is never told to finish or clear more breaks than it was told to start. */
  lemma EachBreakClosedAtMostOnce(schedule: Schedule, localPeer: Option<PeerId>, turns: seq<Turn>)
    requires ValidSchedule(schedule)
    ensures var trace := Trace(New(schedule, localPeer), turns);
      Grammatical(false, trace) && Count(trace, false) <= Count(trace, true)
  {
    RunIsGrammatical(New(schedule, localPeer), turns);
    ClosesNeverOutnumberOpens(false, Trace(New(schedule, localPeer), turns));
  }
}
