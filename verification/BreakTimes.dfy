/** How long a daemon has a break shown: what is left of it, by its start and its configured duration. */
module BreakTimes {
  import opened Base
  import opened Schedules
  import opened RuntimeModel
  import opened RuntimeRuns
  import P = Protocol
  import S = SchedulerModel

  /** What is left at a moment, in nanoseconds; all of it of a break that has yet to begin. */
  predicate Leaves(remaining: nat, startedAtMs: nat, nowMs: nat, duration: nat) {
    && 0 < remaining
    && (startedAtMs <= nowMs ==> remaining + 1_000_000 * (nowMs - startedAtMs) == duration)
    && (nowMs < startedAtMs ==> remaining == duration)
  }

  /** A break of one of the rules, of which so much is left. */
  predicate LeavesOf(rules: seq<Rule>, c: CurrentBreak, remaining: nat, nowMs: nat) {
    var rule := FindRule(rules, c.name);
    rule.Some? && c.origin != Scheduled(0) && Leaves(remaining, c.startedAtMs, nowMs, rule.value.duration)
  }

  /** A command that begins a break says how much is left of the break now shown. */
  predicate Timely(c: Command, after: Runtime, nowMs: nat) {
    match c
    case StartBreak(b) =>
      && after.current.Some? && LeavesOf(after.scheduler.Rules(), after.current.value, b.duration, nowMs)
      && b.name == after.current.value.name && b.origin == after.current.value.origin
    case ReplaceActiveBreak(_, remaining, _) =>
      after.current.Some? && LeavesOf(after.scheduler.Rules(), after.current.value, remaining, nowMs)
    case _ => true
  }

  predicate TimelyStep(r: Runtime, env: Env, step: Step) {
    step.running && |step.after.commands| != |r.commands| ==>
      |step.after.commands| == |r.commands| + 1 && Timely(step.after.commands[|r.commands|], step.after, env.laterNow)
  }

  /** The scheduler handed out a break of a configured rule. */
  predicate OfRule(rules: seq<Rule>, b: ScheduledBreak) {
    && FindRule(rules, b.name).Some? && b.duration == FindRule(rules, b.name).value.duration
    && b.origin != Scheduled(0)
  }

  lemma StartAtIsTimely(r: Runtime, env: Env, b: ScheduledBreak, at: nat, propagation: Propagation)
    requires OfRule(r.scheduler.Rules(), b)
    ensures TimelyStep(r, env, StartBreakAt(r, env, b, at, propagation))
    ensures TimelyStep(r, env, ReplaceCurrentBreak(r, env, b, at))
  {
  }

  lemma AdvanceIsTimely(r: Runtime, env: Env, elapsed: nat, propagation: Propagation)
    requires r.Valid()
    ensures TimelyStep(r, env, AdvanceActive(r, env, elapsed, propagation))
  {
    var o := S.AdvanceActive(r.scheduler, elapsed, env.pick);
    if o.started.Some? {
      RuleFacts(r.scheduler.Rules(), S.NextRule(r.scheduler));
      StartAtIsTimely(ClearNotice(r.(scheduler := o.after)), env, o.started.value, env.startNow, propagation);
    }
  }

  lemma ObserveIsTimely(r: Runtime, env: Env, elapsed: nat, a: Propagation)
    requires r.Valid()
    ensures TimelyStep(r, env, ObserveActive(r, env, elapsed, a, Forward))
  {
    var tracked := BroadcastIfNeeded(ResetIdleTracking(r), a, P.ActiveTimeElapsed(elapsed));
    AdvanceIsTimely(tracked.(activity := Spend(r.activity, elapsed)), env, Credited(r.activity, elapsed), Forward);
  }

  lemma ManualIsTimely(r: Runtime, env: Env, name: string)
    requires r.Valid()
    ensures TimelyStep(r, env, StartManualBreak(r, env, name, Forward))
  {
    var o := S.StartManualBreak(r.scheduler, name, env.pick);
    if o.started.Some? {
      StartAtIsTimely(r.(scheduler := o.after), env, o.started.value, env.startNow, Forward);
    }
  }

  lemma SyncedStartIsTimely(r: Runtime, env: Env, peer: PeerId, start: SyncedStart)
    ensures TimelyStep(r, env, ApplySyncedBreakStart(r, env, peer, start))
  {
    var joined := S.StartActiveSyncedBreak(r.scheduler, start.name, start.origin, env.pick);
    if r.current.None? && joined.started.Some? {
      var lock := if start.lockAfter.Some? then start.lockAfter.value else joined.started.value.autolock;
      StartAtIsTimely(r.(scheduler := S.MergeSyncedPosition(joined.after, start.position)), env,
                      joined.started.value.(message := start.message, autolock := lock), start.startedAtMs, Suppress);
    }
    var o := S.ReplacementSyncedBreak(r.scheduler, start.name, start.origin, env.pick);
    if r.current.Some? && o.started.Some? {
      var lock := ReplacedLock(start, r.current.value, o.started.value.autolock);
      StartAtIsTimely(r.(scheduler := S.MergeSyncedPosition(o.after, start.position)), env,
                      o.started.value.(message := start.message, autolock := lock), start.startedAtMs, Suppress);
    }
  }

  lemma EndIsTimely(r: Runtime, env: Env, propagation: Propagation)
    ensures TimelyStep(r, env, Finish(r, env)) && TimelyStep(r, env, RequestLock(r, env, propagation))
  {
  }

  lemma DisableIsTimely(r: Runtime, env: Env, duration: nat, propagation: Propagation)
    ensures TimelyStep(r, env, DisableForDuration(r, env, duration, propagation))
    ensures TimelyStep(r, env, DisableUntil(r, env, propagation))
  {
  }

  lemma SilentIsTimely(r: Runtime, env: Env, elapsed: nat, propagation: Propagation)
    ensures AdvanceIdle(r, elapsed).commands == r.commands && AdvanceWallClock(r, env, elapsed).commands == r.commands
    ensures ApplySchedulerReset(r, propagation).commands == r.commands && FailStart(r).commands == r.commands
    ensures EnableScheduler(r, propagation).commands == r.commands && ClearNotice(r).commands == r.commands
  {
  }

  /** What users and the backend ask for. */
  predicate IsRequest(e: RuntimeEvent) {
    e.DisableBreaks? || e.EnableBreaks? || e.BreakFinished? || e.LockAfterBreak? || e.BreakStartFailed? || e.Shutdown?
  }

  lemma OffIsTimely(r: Runtime, env: Env, request: DisableRequest)
    requires r.Valid()
    ensures TimelyStep(r, env, HandleEvent(r, env, DisableBreaks(request)))
  {
    match request
    case For(duration) => DisableIsTimely(r, env, duration, Forward);
    case UntilRestartRequest => DisableIsTimely(r, env, 0, Forward);
  }

  lemma RequestIsTimely(r: Runtime, env: Env, e: RuntimeEvent)
    requires r.Valid() && IsRequest(e)
    ensures TimelyStep(r, env, HandleEvent(r, env, e))
  {
    match e
    case DisableBreaks(request) => OffIsTimely(r, env, request);
    case BreakFinished => EndIsTimely(r, env, Forward);
    case LockAfterBreak => EndIsTimely(r, env, Forward);
    case EnableBreaks => SilentIsTimely(r, env, 0, Forward);
    case BreakStartFailed => SilentIsTimely(r, env, 0, Forward);
    case Shutdown => SilentIsTimely(r, env, 0, Forward);
  }

  lemma LocalIsTimely(r: Runtime, env: Env, e: RuntimeEvent)
    requires r.Valid()
    ensures TimelyStep(r, env, HandleEvent(r, env, e))
  {
    if IsRequest(e) {
      RequestIsTimely(r, env, e);
    } else if e.ActiveElapsed? {
      ObserveIsTimely(r, env, e.elapsed, Forward);
    } else if e.StartManual? {
      ManualIsTimely(r, env, e.name);
    } else {
      SilentIsTimely(r, env, e.elapsed, Forward);
    }
  }

  lemma DomainIsTimely(r: Runtime, env: Env, peer: PeerId, e: P.SyncEvent)
    requires r.Valid()
    ensures TimelyStep(r, env, HandleSyncEvent(r, env, peer, e))
  {
    match e
    case ActiveTimeElapsed(elapsed) => ObserveIsTimely(r, env, elapsed, Suppress);
    case BreakStarted(name, message, at, origin, p) =>
      SyncedStartIsTimely(r, env, peer, SyncedStart(name, message, at, origin, p, None));
    case SchedulerState(slot, elapsed, last, b) => SnapshotIsTimely(r, env, peer, Position(slot, elapsed, last), b);
    case DisableFor(duration) => DisableIsTimely(r, env, duration, Suppress);
    case DisableUntilRestart => DisableIsTimely(r, env, 0, Suppress);
    case LockAfterCurrentBreak => EndIsTimely(r, env, Suppress);
    case Enable => SilentIsTimely(r, env, 0, Suppress);
    case SchedulerReset => SilentIsTimely(r, env, 0, Suppress);
  }

  lemma SnapshotIsTimely(r: Runtime, env: Env, peer: PeerId, p: Position, b: Option<P.ActiveBreak>)
    ensures TimelyStep(r, env, ApplySyncedSchedulerState(r, env, peer, p, b))
  {
    if b.Some? {
      SyncedStartIsTimely(r, env, peer, SyncedStart(b.value.name, b.value.message, b.value.startedAtMs,
        b.value.origin, p, Some(b.value.lockAfter)));
    }
  }

  /**
   * Whatever makes a daemon start, join or replace a break: the backend is told to show what is left of it
   * by its start and the configured duration, and never less than something.
   */
  lemma TurnIsTimely(r: Runtime, turn: Turn)
    requires r.Valid()
    ensures var step := TakeTurn(r, turn);
      step.running && step.after.commands != [] ==>
        |step.after.commands| == 1 && Timely(step.after.commands[0], step.after, turn.env.laterNow)
  {
    match turn.input
    case Local(e) => LocalIsTimely(Drained(r), turn.env, e);
    case Sync(Domain(peer, e)) => DomainIsTimely(Drained(r), turn.env, peer, e);
    case Sync(_) =>
  }
}
