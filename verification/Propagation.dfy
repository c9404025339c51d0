/** What one user asks for holds on every machine: the peers that hear of it end in the same state. */
module Propagation {
  import opened Base
  import opened Schedules
  import opened Protocol
  import opened RuntimeModel
  import opened RuntimeRuns
  import opened Disabling
  import S = SchedulerModel

  function Asked(r: Runtime, env: Env, e: RuntimeEvent): (step: Step)
    requires r.Valid()
    ensures step.after.Valid()
  {
    TakeTurn(r, Turn(env, Local(e)))
  }

  function Told(r: Runtime, env: Env, peer: PeerId, e: SyncEvent): (step: Step)
    requires r.Valid()
    ensures step.after.Valid()
  {
    TakeTurn(r, Turn(env, Sync(Domain(peer, e))))
  }

  /** What a step broadcasts, if it broadcasts one thing, as it arrives somewhere. */
  predicate Spreads(step: Step, e: SyncEvent) {
    |step.after.sent| == 1 && step.after.sent[0].Broadcast? && ArrivesAs(step.after.sent[0].event, e)
  }

  // ----- disabling and enabling -----

  /** A disable that runs for the whole milliseconds of a duration from a moment on. */
  predicate LastsFor(mode: DisableMode, now: nat, duration: nat) {
    mode.Timed? && now <= mode.endsAtMs
    && Millis(mode.endsAtMs - now) <= duration < Millis(mode.endsAtMs - now + 1)
  }

  predicate AllOff(r: Runtime) { r.current.None? && r.scheduler.state == S.Ready(S.Disabled) && r.notice.None? }

  lemma EndOfDisable(r: Runtime, env: Env, duration: nat, propagation: Propagation)
    requires Joint(r)
    ensures var step := DisableForDuration(r, env, duration, propagation);
      step.running ==> LastsFor(step.after.disableMode, env.startNow, duration) && AllOff(step.after)
  {
    QuotientAndRemainder(duration, NANOS_PER_MILLI);
  }

  lemma TimedHere(r: Runtime, env: Env, duration: nat)
    requires r.Valid() && Joint(r) && Asked(r, env, DisableBreaks(For(duration))).running
    ensures var after := Asked(r, env, DisableBreaks(For(duration))).after;
      && LastsFor(after.disableMode, env.startNow, duration) && AllOff(after)
      && after.sent == [Broadcast(DisableFor(duration))]
  {
    EndOfDisable(Drained(r), env, duration, Forward);
  }

  lemma TimedThere(r: Runtime, env: Env, peer: PeerId, duration: nat)
    requires r.Valid() && Joint(r) && Told(r, env, peer, DisableFor(duration)).running
    ensures var after := Told(r, env, peer, DisableFor(duration)).after;
      LastsFor(after.disableMode, env.startNow, duration) && AllOff(after) && after.sent == []
  {
    EndOfDisable(Drained(r), env, duration, Suppress);
  }

  /** The wire takes away no whole millisecond of it. */
  lemma RoundedLasts(mode: DisableMode, now: nat, duration: nat, arrived: nat)
    requires Rounded(duration, arrived) && LastsFor(mode, now, arrived)
    ensures LastsFor(mode, now, duration)
  {
    QuotientAndRemainder(arrived, NANOS_PER_MILLI);
  }

  /** A timed disable switches breaks off here and at each peer, for the same whole milliseconds. */
  lemma TimedDisableSpreads(
    a: Runtime, b: Runtime, envA: Env, envB: Env, peer: PeerId, duration: nat, e: SyncEvent)
    requires a.Valid() && b.Valid() && Joint(a) && Joint(b)
    requires Asked(a, envA, DisableBreaks(For(duration))).running
    requires Spreads(Asked(a, envA, DisableBreaks(For(duration))), e) && Told(b, envB, peer, e).running
    ensures var here, there := Asked(a, envA, DisableBreaks(For(duration))).after, Told(b, envB, peer, e).after;
      && AllOff(here) && AllOff(there) && there.sent == []
      && LastsFor(here.disableMode, envA.startNow, duration)
      && LastsFor(there.disableMode, envB.startNow, duration)
      && (envA.startNow == envB.startNow ==> here.disableMode == there.disableMode)
  {
    TimedHere(a, envA, duration);
    TimedThere(b, envB, peer, e.duration);
    RoundedLasts(Told(b, envB, peer, e).after.disableMode, envB.startNow, duration, e.duration);
  }

  lemma OffForGood(r: Runtime, env: Env, propagation: Propagation)
    requires Joint(r)
    ensures var step := DisableUntil(r, env, propagation);
      && (step.running ==> step.after.disableMode == UntilRestart && AllOff(step.after))
      && (step.running ==>
            step.after.sent == r.sent + if propagation.Forward? then [Broadcast(DisableUntilRestart)] else [])
  {
  }

  lemma DisableSpreads(a: Runtime, b: Runtime, envA: Env, envB: Env, peer: PeerId, e: SyncEvent)
    requires a.Valid() && b.Valid() && Joint(a) && Joint(b)
    requires Asked(a, envA, DisableBreaks(UntilRestartRequest)).running
    requires Spreads(Asked(a, envA, DisableBreaks(UntilRestartRequest)), e) && Told(b, envB, peer, e).running
    ensures var here, there := Asked(a, envA, DisableBreaks(UntilRestartRequest)).after, Told(b, envB, peer, e).after;
      && AllOff(here) && AllOff(there) && there.sent == []
      && here.disableMode == there.disableMode == UntilRestart
  {
    OffForGood(Drained(a), envA, Forward);
    assert e == DisableUntilRestart;
    OffForGood(Drained(b), envB, Suppress);
  }

  /** Enabling leaves what is shown, and lets the schedule run on: at once, or after the break shown. */
  predicate EnabledFrom(r: Runtime, after: Runtime) {
    && after.disableMode.Enabled? && after.scheduler.Mode() == S.Active && after.current == r.current
    && (after.scheduler.state.Ready? <==> r.scheduler.state.Ready?)
    && after.scheduler == r.scheduler.(state := after.scheduler.state)
  }

  lemma EnableEnables(r: Runtime, propagation: Propagation)
    ensures EnabledFrom(r, EnableScheduler(r, propagation))
    ensures EnableScheduler(r, propagation).sent == r.sent + if propagation.Forward? then [Broadcast(Enable)] else []
  {
  }

  lemma EnableSpreads(a: Runtime, b: Runtime, envA: Env, envB: Env, peer: PeerId, e: SyncEvent)
    requires a.Valid() && b.Valid() && Spreads(Asked(a, envA, EnableBreaks), e)
    ensures EnabledFrom(a, Asked(a, envA, EnableBreaks).after)
    ensures EnabledFrom(b, Told(b, envB, peer, e).after) && Told(b, envB, peer, e).after.sent == []
  {
    EnableEnables(Drained(a), Forward);
    EnableEnables(Drained(b), Suppress);
  }

  // ----- locking and resetting -----

  /** The break shown locks afterwards, and nothing else of it changes. */
  predicate LockedFrom(r: Runtime, after: Runtime) {
    && after.current == (if r.current.None? then None else Some(r.current.value.(lockAfter := true)))
    && after.scheduler == r.scheduler
  }

  lemma LockLocks(r: Runtime, env: Env, propagation: Propagation)
    requires RequestLock(r, env, propagation).running
    ensures LockedFrom(r, RequestLock(r, env, propagation).after)
    ensures RequestLock(r, env, propagation).after.sent == r.sent
      + if propagation.Forward? && r.current.Some? && !r.current.value.lockAfter then [Broadcast(LockAfterCurrentBreak)]
        else []
  {
  }

  lemma LockThere(r: Runtime, env: Env, peer: PeerId)
    requires r.Valid() && Told(r, env, peer, LockAfterCurrentBreak).running
    ensures LockedFrom(r, Told(r, env, peer, LockAfterCurrentBreak).after)
    ensures Told(r, env, peer, LockAfterCurrentBreak).after.sent == []
  {
    LockLocks(Drained(r), env, Suppress);
  }

  lemma LockHere(r: Runtime, env: Env)
    requires r.Valid() && Asked(r, env, LockAfterBreak).running && Asked(r, env, LockAfterBreak).after.sent != []
    ensures r.current.Some? && LockedFrom(r, Asked(r, env, LockAfterBreak).after)
    ensures Asked(r, env, LockAfterBreak).after.sent == [Broadcast(LockAfterCurrentBreak)]
  {
    LockLocks(Drained(r), env, Forward);
  }

  /** A lock asked for here is carried out for whatever break a peer shows. */
  lemma LockSpreads(a: Runtime, b: Runtime, envA: Env, envB: Env, peer: PeerId, e: SyncEvent)
    requires a.Valid() && b.Valid() && Asked(a, envA, LockAfterBreak).running
    requires Spreads(Asked(a, envA, LockAfterBreak), e) && Told(b, envB, peer, e).running
    ensures a.current.Some? && LockedFrom(a, Asked(a, envA, LockAfterBreak).after)
    ensures LockedFrom(b, Told(b, envB, peer, e).after) && Told(b, envB, peer, e).after.sent == []
  {
    LockHere(a, envA);
    LockThere(b, envB, peer);
  }

  predicate AtZero(s: S.Scheduler) {
    s.slot == 0 && s.activeElapsed == 0 && forall n | n in s.last :: s.last[n] == 0
  }

  /** No idle timeout fires again before someone is active. */
  predicate IdleDone(r: Runtime) { r.activeTimeIdleReset.triggered && r.breakCountIdleReset.triggered }

  /** The position is back at zero; the break shown and the scheduler's state are as they were. */
  predicate ResetFrom(r: Runtime, after: Runtime) {
    && AtZero(after.scheduler) && after.scheduler.last.Keys == r.scheduler.last.Keys
    && after.scheduler.state == r.scheduler.state && after.current == r.current
    && after.notice.None? && IdleDone(after)
  }

  lemma ResetResets(r: Runtime, propagation: Propagation)
    ensures ResetFrom(r, ApplySchedulerReset(r, propagation))
    ensures propagation.Suppress? ==> ApplySchedulerReset(r, propagation).sent == r.sent
  {
  }

  lemma ResetHere(r: Runtime, elapsed: nat)
    requires r.sent == [] && AdvanceIdle(r, elapsed).sent != []
    ensures ResetFrom(r, AdvanceIdle(r, elapsed))
    ensures AdvanceIdle(r, elapsed).sent == [Broadcast(SchedulerReset)]
  {
  }

  lemma ResetAsked(r: Runtime, env: Env, elapsed: nat)
    requires r.Valid() && Asked(r, env, IdleElapsed(elapsed)).after.sent != []
    ensures ResetFrom(r, Asked(r, env, IdleElapsed(elapsed)).after)
    ensures Asked(r, env, IdleElapsed(elapsed)).after.sent == [Broadcast(SchedulerReset)]
  {
    ResetHere(Drained(r), elapsed);
  }

  lemma ResetTold(r: Runtime, env: Env, peer: PeerId)
    requires r.Valid()
    ensures ResetFrom(r, Told(r, env, peer, SchedulerReset).after) && Told(r, env, peer, SchedulerReset).after.sent == []
  {
    ResetResets(Drained(r), Suppress);
  }

  /** Whoever resets after a long idle time, all count from zero; breaks shown stay. */
  lemma ResetSpreads(a: Runtime, b: Runtime, envA: Env, envB: Env, peer: PeerId, elapsed: nat, e: SyncEvent)
    requires a.Valid() && b.Valid() && Spreads(Asked(a, envA, IdleElapsed(elapsed)), e)
    ensures ResetFrom(a, Asked(a, envA, IdleElapsed(elapsed)).after)
    ensures ResetFrom(b, Told(b, envB, peer, e).after) && Told(b, envB, peer, e).after.sent == []
  {
    ResetAsked(a, envA, elapsed);
    ResetTold(b, envB, peer);
  }

  // ----- how long a disable lasts -----

  predicate SetsMode(input: Input) {
    match input
    case Local(DisableBreaks(_)) => true
    case Local(EnableBreaks) => true
    case Sync(Domain(_, DisableFor(_))) => true
    case Sync(Domain(_, DisableUntilRestart)) => true
    case Sync(Domain(_, Enable)) => true
    case _ => false
  }

  /** A tick after which all whole milliseconds of a disable have passed. */
  predicate RunsOut(turn: Turn, since: nat, duration: nat) {
    && turn.input.Local? && turn.input.event.WallClockElapsed? && since <= turn.env.startNow
    && duration < Millis(turn.env.startNow - since + 1)
  }

  lemma LocalKeepsMode(r: Runtime, env: Env, e: RuntimeEvent)
    requires r.Valid() && !SetsMode(Local(e)) && !e.WallClockElapsed?
    ensures HandleEvent(r, env, e).after.disableMode == r.disableMode
  {
    match e
    case ActiveElapsed(elapsed) => AdvanceKeepsMode(r, env, elapsed, Forward, Forward);
    case StartManual(name) => StartKeepsMode(r, env, name);
    case IdleElapsed(elapsed) =>
      EndKeepsMode(r.(breakCountIdleReset := IdleAdvance(r.breakCountIdleReset, elapsed),
                      activeTimeIdleReset := IdleAdvance(r.activeTimeIdleReset, elapsed)), env, Forward);
    case Shutdown =>
    case _ => EndKeepsMode(r, env, Forward);
  }

  lemma DomainKeepsMode(r: Runtime, env: Env, peer: PeerId, e: SyncEvent)
    requires r.Valid() && !SetsMode(Sync(Domain(peer, e)))
    ensures HandleSyncEvent(r, env, peer, e).after.disableMode == r.disableMode
  {
    match e
    case ActiveTimeElapsed(elapsed) => AdvanceKeepsMode(r, env, elapsed, Suppress, Forward);
    case BreakStarted(name, message, at, origin, p) =>
      SyncedStartKeepsMode(r, env, peer, SyncedStart(name, message, at, origin, p, None));
    case SchedulerState(slot, elapsed, last, b) =>
      if b.Some? {
        SyncedStartKeepsMode(r, env, peer, SyncedStart(b.value.name, b.value.message, b.value.startedAtMs,
          b.value.origin, Position(slot, elapsed, last), Some(b.value.lockAfter)));
      }
    case _ => EndKeepsMode(r, env, Suppress);
  }

  lemma OtherKeepsMode(r: Runtime, turn: Turn)
    requires r.Valid() && !SetsMode(turn.input)
    ensures TakeTurn(r, turn).after.disableMode
         == if turn.input.Local? && turn.input.event.WallClockElapsed? && r.disableMode.Timed?
               && r.disableMode.endsAtMs <= turn.env.startNow then Enabled
            else r.disableMode
  {
    match turn.input
    case Local(e) => if !e.WallClockElapsed? { LocalKeepsMode(Drained(r), turn.env, e); }
    case Sync(Domain(peer, e)) => DomainKeepsMode(Drained(r), turn.env, peer, e);
    case Sync(_) =>
  }

  predicate NoneSetsMode(turns: seq<Turn>) { forall i | 0 <= i < |turns| :: !SetsMode(turns[i].input) }

  lemma {:induction false} EnabledStays(r: Runtime, turns: seq<Turn>)
    requires r.Valid() && r.disableMode.Enabled? && NoneSetsMode(turns)
    ensures Run(r, turns).after.disableMode.Enabled?
    decreases |turns|
  {
    if turns != [] {
      OtherKeepsMode(r, turns[0]);
      if TakeTurn(r, turns[0]).running { EnabledStays(TakeTurn(r, turns[0]).after, turns[1..]); }
    }
  }

  /**
   * Over any run without another request, a timed disable is over exactly if some tick came when its
   * time had passed.
   */
  lemma {:induction false} TimedDisableLasts(r: Runtime, since: nat, duration: nat, turns: seq<Turn>)
    requires r.Valid() && LastsFor(r.disableMode, since, duration) && NoneSetsMode(turns) && Run(r, turns).running
    ensures Run(r, turns).after.disableMode.Enabled?
       <==> exists i | 0 <= i < |turns| :: RunsOut(turns[i], since, duration)
    ensures !Run(r, turns).after.disableMode.Enabled? ==> Run(r, turns).after.disableMode == r.disableMode
    decreases |turns|
  {
    if turns != [] {
      var next := TakeTurn(r, turns[0]).after;
      OtherKeepsMode(r, turns[0]);
      if next.disableMode.Enabled? {
        assert RunsOut(turns[0], since, duration);
        EnabledStays(next, turns[1..]);
      } else {
        TimedDisableLasts(next, since, duration, turns[1..]);
        assert turns == [turns[0]] + turns[1..];
      }
    }
  }
}
