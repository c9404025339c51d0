/** While breaks are disabled nothing is shown by the schedule, until exactly the right moment. */
module Disabling {
  import opened Base
  import opened Schedules
  import opened Protocol
  import opened RuntimeModel
  import opened RuntimeRuns

  /** Breaks are off and none is shown. */
  predicate Off(r: Runtime) { Joint(r) && !r.disableMode.Enabled? && r.current.None? }

  /** Someone enables breaks, or a timed disable has run out when the wall clock ticks. */
  predicate Reenables(r: Runtime, turn: Turn) {
    match turn.input
    case Local(EnableBreaks) => true
    case Sync(Domain(_, Enable)) => true
    case Local(WallClockElapsed(_)) => r.disableMode.Timed? && r.disableMode.endsAtMs <= turn.env.startNow
    case _ => false
  }

  /** The user starts a break by hand, or a peer reports one. */
  predicate BringsBreak(input: Input) {
    match input
    case Local(StartManual(_)) => true
    case Sync(Domain(_, BreakStarted(_, _, _, _, _))) => true
    case Sync(Domain(_, SchedulerState(_, _, _, activeBreak))) => activeBreak.Some?
    case _ => false
  }

  lemma AdvanceKeepsMode(r: Runtime, env: Env, elapsed: nat, a: Propagation, b: Propagation)
    requires r.Valid()
    ensures ObserveActive(r, env, elapsed, a, b).after.disableMode == r.disableMode
  {
  }

  lemma SyncedStartKeepsMode(r: Runtime, env: Env, peer: PeerId, start: SyncedStart)
    ensures ApplySyncedBreakStart(r, env, peer, start).after.disableMode == r.disableMode
  {
  }

  lemma StartKeepsMode(r: Runtime, env: Env, name: string)
    requires r.Valid()
    ensures StartManualBreak(r, env, name, Forward).after.disableMode == r.disableMode
  {
  }

  lemma EndKeepsMode(r: Runtime, env: Env, propagation: Propagation)
    ensures Finish(r, env).after.disableMode == r.disableMode && FailStart(r).disableMode == r.disableMode
    ensures RequestLock(r, env, propagation).after.disableMode == r.disableMode
    ensures ApplySchedulerReset(r, propagation).disableMode == r.disableMode
  {
  }

  lemma DisableSetsMode(r: Runtime, env: Env, duration: nat, propagation: Propagation)
    ensures DisableForDuration(r, env, duration, propagation).after.disableMode.Timed?
    ensures DisableUntil(r, env, propagation).after.disableMode.UntilRestart?
  {
  }

  lemma LocalMode(r: Runtime, env: Env, e: RuntimeEvent)
    requires r.Valid() && !r.disableMode.Enabled?
    ensures HandleEvent(r, env, e).after.disableMode.Enabled? <==> Reenables(r, Turn(env, Local(e)))
  {
    match e
    case ActiveElapsed(elapsed) => AdvanceKeepsMode(r, env, elapsed, Forward, Forward);
    case StartManual(name) => StartKeepsMode(r, env, name);
    case DisableBreaks(For(duration)) => DisableSetsMode(r, env, duration, Forward);
    case DisableBreaks(UntilRestartRequest) => DisableSetsMode(r, env, 0, Forward);
    case IdleElapsed(elapsed) =>
      EndKeepsMode(r.(breakCountIdleReset := IdleAdvance(r.breakCountIdleReset, elapsed),
                      activeTimeIdleReset := IdleAdvance(r.activeTimeIdleReset, elapsed)), env, Forward);
    case WallClockElapsed(_) =>
    case EnableBreaks =>
    case Shutdown =>
    case _ => EndKeepsMode(r, env, Forward);
  }

  lemma SyncMode(r: Runtime, env: Env, peer: PeerId, e: SyncEvent)
    requires r.Valid() && !r.disableMode.Enabled?
    ensures HandleSyncEvent(r, env, peer, e).after.disableMode.Enabled? <==> Reenables(r, Turn(env, Sync(Domain(peer, e))))
  {
    match e
    case ActiveTimeElapsed(elapsed) => AdvanceKeepsMode(r, env, elapsed, Suppress, Forward);
    case BreakStarted(name, message, at, origin, p) =>
      SyncedStartKeepsMode(r, env, peer, SyncedStart(name, message, at, origin, p, None));
    case SchedulerState(slot, elapsed, last, Some(b)) =>
      SyncedStartKeepsMode(r, env, peer,
        SyncedStart(b.name, b.message, b.startedAtMs, b.origin, Position(slot, elapsed, last), Some(b.lockAfter)));
    case DisableFor(duration) => DisableSetsMode(r, env, duration, Suppress);
    case DisableUntilRestart => DisableSetsMode(r, env, 0, Suppress);
    case SchedulerReset => EndKeepsMode(r, env, Suppress);
    case LockAfterCurrentBreak => EndKeepsMode(r, env, Suppress);
    case _ =>
  }

  /** Whatever is shown meanwhile, a disable ends exactly when someone enables breaks or it has run out. */
  lemma DisableEndsIff(r: Runtime, turn: Turn)
    requires r.Valid() && !r.disableMode.Enabled?
    ensures TakeTurn(r, turn).after.disableMode.Enabled? <==> Reenables(r, turn)
  {
    match turn.input
    case Local(e) => LocalMode(Drained(r), turn.env, e);
    case Sync(Domain(peer, e)) => SyncMode(Drained(r), turn.env, peer, e);
    case Sync(_) =>
  }

  lemma OffStep(r: Runtime, turn: Turn)
    requires r.Valid() && Off(r) && !BringsBreak(turn.input)
    ensures TakeTurn(r, turn).after.commands == []
    ensures Off(TakeTurn(r, turn).after) <==> !Reenables(r, turn)
  {
    TurnKeepsJoint(r, turn);
    DisableEndsIff(r, turn);
    match turn.input
    case Local(e) => LocalSilent(Drained(r), turn.env, e);
    case Sync(Domain(peer, e)) => SyncSilent(Drained(r), turn.env, peer, e);
    case Sync(_) =>
  }

  predicate Silent(r: Runtime, after: Runtime) { after.commands == r.commands && after.current.None? }

  lemma ObserveSilent(r: Runtime, env: Env, elapsed: nat, a: Propagation, b: Propagation)
    requires r.Valid() && Off(r)
    ensures Silent(r, ObserveActive(r, env, elapsed, a, b).after)
  {
  }

  lemma ResetSilent(r: Runtime, env: Env, elapsed: nat, propagation: Propagation)
    requires r.Valid() && Off(r)
    ensures Silent(r, AdvanceIdle(r, elapsed)) && Silent(r, ApplySchedulerReset(r, propagation))
    ensures Silent(r, AdvanceWallClock(r, env, elapsed))
  {
  }

  lemma LocalSilent(r: Runtime, env: Env, e: RuntimeEvent)
    requires r.Valid() && Off(r) && !e.StartManual?
    ensures Silent(r, HandleEvent(r, env, e).after)
  {
    match e
    case ActiveElapsed(elapsed) => ObserveSilent(r, env, elapsed, Forward, Forward);
    case IdleElapsed(elapsed) => ResetSilent(r, env, elapsed, Forward);
    case WallClockElapsed(elapsed) => ResetSilent(r, env, elapsed, Forward);
    case _ =>
  }

  lemma SyncSilent(r: Runtime, env: Env, peer: PeerId, e: SyncEvent)
    requires r.Valid() && Off(r) && !BringsBreak(Sync(Domain(peer, e)))
    ensures Silent(r, HandleSyncEvent(r, env, peer, e).after)
  {
    match e
    case ActiveTimeElapsed(elapsed) => ObserveSilent(r, env, elapsed, Suppress, Forward);
    case SchedulerReset => ResetSilent(r, env, 0, Suppress);
    case _ =>
  }

  /** Nothing in the run ends the disable or brings a break from elsewhere. */
  predicate Undisturbed(r: Runtime, turns: seq<Turn>)
    requires r.Valid()
    decreases |turns|
  {
    turns == [] ||
    (&& !BringsBreak(turns[0].input) && !Reenables(r, turns[0])
     && Undisturbed(TakeTurn(r, turns[0]).after, turns[1..]))
  }

  /** Over any such run, however much active time is reported, the overlay is told nothing. */
  lemma {:induction false} DisabledRunShowsNothing(r: Runtime, turns: seq<Turn>)
    requires r.Valid() && Off(r) && Undisturbed(r, turns)
    ensures Off(Run(r, turns).after)
    ensures forall item | item in Trace(r, turns) :: item == StartFailed
    decreases |turns|
  {
    if turns != [] {
      OffStep(r, turns[0]);
      if TakeTurn(r, turns[0]).running {
        DisabledRunShowsNothing(TakeTurn(r, turns[0]).after, turns[1..]);
      }
    }
  }

  /** Disabling does not keep a peer's break away, and finishing it leaves breaks disabled. */
  lemma PeersBreakShowsWhileOff(r: Runtime, env: Env, peer: PeerId, start: SyncedStart, rule: Rule)
    requires r.Valid() && Off(r) && env.backendUp && start.origin != Scheduled(0)
    requires FindRule(r.scheduler.Rules(), start.name) == Some(rule)
    requires start.origin.Scheduled? ==> r.scheduler.slot <= start.origin.slot
    requires Remaining(env.laterNow, start.startedAtMs, rule.duration) > 0
    ensures var shown := ApplySyncedBreakStart(r, env, peer, start).after;
      && shown.current.Some? && shown.current.value.name == start.name
      && Off(Finish(shown, env).after)
  {
  }
}
