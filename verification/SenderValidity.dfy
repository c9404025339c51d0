/** Whatever a daemon in a reachable state sends, its peers' validation accepts. */
module SenderValidity {
  import opened Base
  import opened Names
  import opened Schedules
  import opened Protocol
  import opened RuntimeModel
  import opened RuntimeRuns
  import S = SchedulerModel

  /** No rule is satisfied later than the current slot. */
  predicate Bounded(s: S.Scheduler) {
    s.Valid() && forall n | n in s.last :: s.last[n] <= s.slot
  }

  predicate AllValid(sent: seq<Outgoing>) { forall i | 0 <= i < |sent| :: ValidEvent(sent[i].event) }

  predicate Presentable(current: Option<CurrentBreak>) {
    current.Some? ==> ValidName(current.value.name) && current.value.origin != Scheduled(0)
  }

  /** The state can be described to a peer, and so far only valid events were sent. */
  predicate Sendable(r: Runtime) {
    Bounded(r.scheduler) && Presentable(r.current) && AllValid(r.sent)
  }

  lemma BoundedPositionIsValid(s: S.Scheduler)
    requires Bounded(s)
    ensures ValidSatisfiedSlots(s.slot, s.last)
  {
    forall n | n in s.last ensures ValidName(n) {
      RuleFacts(s.Rules(), FindRule(s.Rules(), n).value);
    }
  }

  lemma AdvanceKeepsBounded(s: S.Scheduler, elapsed: nat, pick: nat)
    requires Bounded(s)
    ensures Bounded(S.AdvanceActive(s, elapsed, pick).after)
  {
  }

  lemma ManualKeepsBounded(s: S.Scheduler, name: string, pick: nat)
    requires Bounded(s)
    ensures Bounded(S.StartManualBreak(s, name, pick).after)
  {
  }

  lemma MergeKeepsBounded(s: S.Scheduler, p: Position)
    requires Bounded(s)
    ensures Bounded(S.MergeSyncedPosition(s, p))
  {
  }

  lemma AdoptionKeepsBounded(s: S.Scheduler, name: string, origin: Origin, pick: nat)
    requires Bounded(s)
    ensures Bounded(S.StartActiveSyncedBreak(s, name, origin, pick).after)
    ensures Bounded(S.ReplacementSyncedBreak(s, name, origin, pick).after)
  {
  }

  /** The break just started came from a rule and has a real slot. */
  predicate FromRule(b: ScheduledBreak) { ValidName(b.name) && b.origin != Scheduled(0) }

  lemma StartedBreakIsFromRule(s: S.Scheduler, elapsed: nat, name: string, origin: Origin, pick: nat)
    requires s.Valid()
    ensures S.AdvanceActive(s, elapsed, pick).started.Some? ==> FromRule(S.AdvanceActive(s, elapsed, pick).started.value)
    ensures S.StartManualBreak(s, name, pick).started.Some? ==> FromRule(S.StartManualBreak(s, name, pick).started.value)
    ensures S.BreakForOrigin(s, name, origin, pick).Some? ==> FromRule(S.BreakForOrigin(s, name, origin, pick).value)
  {
    RuleFacts(s.Rules(), S.NextRule(s));
    if FindRule(s.Rules(), name).Some? {
      RuleFacts(s.Rules(), FindRule(s.Rules(), name).value);
    }
  }

  lemma StartBreakAtShows(r: Runtime, env: Env, b: ScheduledBreak, at: nat, propagation: Propagation)
    requires Bounded(r.scheduler) && Presentable(r.current) && FromRule(b)
    ensures var after := StartBreakAt(r, env, b, at, propagation).after;
      Bounded(after.scheduler) && Presentable(after.current)
  {
  }

  lemma StartBreakAtSends(r: Runtime, env: Env, b: ScheduledBreak, at: nat, propagation: Propagation)
    ensures var e := BreakStarted(b.name, b.message, at, b.origin, S.PositionOf(r.scheduler));
      var after := StartBreakAt(r, env, b, at, propagation).after.sent;
      after == r.sent || after == r.sent + [Broadcast(e)]
  {
  }

  lemma StartBreakAtSendable(r: Runtime, env: Env, b: ScheduledBreak, at: nat, propagation: Propagation)
    requires Sendable(r) && FromRule(b)
    ensures Sendable(StartBreakAt(r, env, b, at, propagation).after)
  {
    BoundedPositionIsValid(r.scheduler);
    StartBreakAtShows(r, env, b, at, propagation);
    StartBreakAtSends(r, env, b, at, propagation);
  }

  lemma BroadcastKeepsValid(r: Runtime, propagation: Propagation, e: SyncEvent)
    requires AllValid(r.sent) && (propagation == Forward ==> ValidEvent(e))
    ensures AllValid(BroadcastIfNeeded(r, propagation, e).sent)
  {
  }

  lemma AdvanceActiveSendable(r: Runtime, env: Env, elapsed: nat, propagation: Propagation)
    requires Sendable(r)
    ensures Sendable(AdvanceActive(r, env, elapsed, propagation).after)
  {
    var o := S.AdvanceActive(r.scheduler, elapsed, env.pick);
    AdvanceKeepsBounded(r.scheduler, elapsed, env.pick);
    if o.started.Some? {
      StartedBreakIsFromRule(r.scheduler, elapsed, "", Manual, env.pick);
      StartBreakAtSendable(ClearNotice(r.(scheduler := o.after)), env, o.started.value, env.startNow, propagation);
    }
  }

  lemma ObserveActiveSendable(r: Runtime, env: Env, elapsed: nat, a: Propagation, b: Propagation)
    requires Sendable(r) && (a == Forward ==> elapsed > 0)
    ensures Sendable(ObserveActive(r, env, elapsed, a, b).after)
  {
    var tracked := BroadcastIfNeeded(ResetIdleTracking(r), a, ActiveTimeElapsed(elapsed));
    assert AllValid(tracked.sent);
    AdvanceActiveSendable(tracked.(activity := Spend(r.activity, elapsed)), env, Credited(r.activity, elapsed), b);
  }

  lemma StartManualSendable(r: Runtime, env: Env, name: string, propagation: Propagation)
    requires Sendable(r)
    ensures Sendable(StartManualBreak(r, env, name, propagation).after)
  {
    ManualKeepsBounded(r.scheduler, name, env.pick);
    StartedBreakIsFromRule(r.scheduler, 0, name, Manual, env.pick);
    var o := S.StartManualBreak(r.scheduler, name, env.pick);
    if o.started.Some? {
      StartBreakAtSendable(r.(scheduler := o.after), env, o.started.value, env.startNow, propagation);
    }
  }

  lemma StartSyncedSendable(r: Runtime, env: Env, start: SyncedStart)
    requires Sendable(r)
    ensures Sendable(StartSyncedBreak(r, env, start).after)
  {
    var o := S.StartActiveSyncedBreak(r.scheduler, start.name, start.origin, env.pick);
    AdoptionKeepsBounded(r.scheduler, start.name, start.origin, env.pick);
    StartedBreakIsFromRule(r.scheduler, 0, start.name, start.origin, env.pick);
    if o.started.Some? {
      MergeKeepsBounded(o.after, start.position);
      var lock := if start.lockAfter.Some? then start.lockAfter.value else o.started.value.autolock;
      StartBreakAtSendable(r.(scheduler := S.MergeSyncedPosition(o.after, start.position)), env,
        o.started.value.(message := start.message, autolock := lock), start.startedAtMs, Suppress);
    }
  }

  lemma ReplacementSendable(r: Runtime, env: Env, start: SyncedStart)
    requires Sendable(r) && r.current.Some?
    ensures var o := S.ReplacementSyncedBreak(r.scheduler, start.name, start.origin, env.pick);
      o.started.Some? ==> Sendable(ReplaceCurrentBreak(
        r.(scheduler := S.MergeSyncedPosition(o.after, start.position)), env,
        o.started.value.(message := start.message,
                         autolock := ReplacedLock(start, r.current.value, o.started.value.autolock)),
        start.startedAtMs).after)
  {
    var o := S.ReplacementSyncedBreak(r.scheduler, start.name, start.origin, env.pick);
    AdoptionKeepsBounded(r.scheduler, start.name, start.origin, env.pick);
    StartedBreakIsFromRule(r.scheduler, 0, start.name, start.origin, env.pick);
    if o.started.Some? {
      MergeKeepsBounded(o.after, start.position);
      var lock := ReplacedLock(start, r.current.value, o.started.value.autolock);
      ReplaceSendable(r.(scheduler := S.MergeSyncedPosition(o.after, start.position)), env,
        o.started.value.(message := start.message, autolock := lock), start.startedAtMs);
    }
  }

  lemma SyncedStartSendable(r: Runtime, env: Env, peer: PeerId, start: SyncedStart)
    requires Sendable(r)
    ensures Sendable(ApplySyncedBreakStart(r, env, peer, start).after)
  {
    MergeKeepsBounded(r.scheduler, start.position);
    if r.current.None? {
      StartSyncedSendable(r, env, start);
    } else {
      ReplacementSendable(r, env, start);
    }
  }

  lemma ReplaceSendable(r: Runtime, env: Env, b: ScheduledBreak, at: nat)
    requires Sendable(r) && FromRule(b)
    ensures Sendable(ReplaceCurrentBreak(r, env, b, at).after)
  {
  }

  lemma BreakControlSendable(r: Runtime, env: Env, propagation: Propagation)
    requires Sendable(r)
    ensures Sendable(Finish(r, env).after) && Sendable(FailStart(r))
    ensures Sendable(RequestLock(r, env, propagation).after)
  {
  }

  lemma ResetSendable(r: Runtime, propagation: Propagation)
    requires Sendable(r)
    ensures Sendable(ApplySchedulerReset(r, propagation))
  {
  }

  lemma DisableSchedulerSendable(r: Runtime, env: Env)
    requires Sendable(r)
    ensures Sendable(DisableScheduler(r, env).after)
  {
  }

  lemma DisableSendable(r: Runtime, env: Env, duration: nat, propagation: Propagation)
    requires Sendable(r)
    ensures Sendable(DisableUntil(r, env, propagation).after)
    ensures propagation == Suppress || duration > 0 ==>
      Sendable(DisableForDuration(r, env, duration, propagation).after)
  {
    var endsAtMs := env.startNow + Quotient(duration, NANOS_PER_MILLI);
    DisableSchedulerSendable(r.(disableMode := Timed(endsAtMs)), env);
    DisableSchedulerSendable(r.(disableMode := UntilRestart), env);
    BroadcastKeepsValid(DisableScheduler(r.(disableMode := UntilRestart), env).after, propagation, DisableUntilRestart);
    if propagation == Suppress || duration > 0 {
      BroadcastKeepsValid(DisableScheduler(r.(disableMode := Timed(endsAtMs)), env).after, propagation,
                          DisableFor(duration));
    }
  }

  lemma EnableSendable(r: Runtime, propagation: Propagation)
    requires Sendable(r)
    ensures Sendable(EnableScheduler(r, propagation))
  {
  }

  /** What the local machine guarantees: it never reports or asks for a zero duration. */
  predicate NonZero(input: Input) {
    match input
    case Local(ActiveElapsed(elapsed)) => elapsed > 0
    case Local(DisableBreaks(For(duration))) => duration > 0
    case _ => true
  }

  lemma LocalSendable(r: Runtime, env: Env, e: RuntimeEvent)
    requires Sendable(r) && NonZero(Local(e))
    ensures Sendable(HandleEvent(r, env, e).after)
  {
    match e
    case ActiveElapsed(elapsed) => ObserveActiveSendable(r, env, elapsed, Forward, Forward);
    case StartManual(name) => StartManualSendable(r, env, name, Forward);
    case IdleElapsed(elapsed) =>
      ResetSendable(r.(breakCountIdleReset := IdleAdvance(r.breakCountIdleReset, elapsed),
                       activeTimeIdleReset := IdleAdvance(r.activeTimeIdleReset, elapsed)), Forward);
    case WallClockElapsed(elapsed) => EnableSendable(r.(activity := CombinedActivity(elapsed, true)), Suppress);
    case DisableBreaks(For(duration)) => DisableSendable(r, env, duration, Forward);
    case DisableBreaks(UntilRestartRequest) => DisableSendable(r, env, 0, Forward);
    case EnableBreaks => EnableSendable(r, Forward);
    case _ => BreakControlSendable(r, env, Forward);
  }

  lemma SyncSendable(r: Runtime, env: Env, peer: PeerId, e: SyncEvent)
    requires Sendable(r)
    ensures Sendable(HandleSyncEvent(r, env, peer, e).after)
  {
    match e
    case ActiveTimeElapsed(elapsed) => ObserveActiveSendable(r, env, elapsed, Suppress, Forward);
    case BreakStarted(name, message, at, origin, position) =>
      SyncedStartSendable(r, env, peer, SyncedStart(name, message, at, origin, position, None));
    case SchedulerState(slot, elapsed, last, activeBreak) =>
      var p := Position(slot, elapsed, last);
      var joined := r;
      if activeBreak.Some? {
        var b := activeBreak.value;
        var start := SyncedStart(b.name, b.message, b.startedAtMs, b.origin, p, Some(b.lockAfter));
        SyncedStartSendable(r, env, peer, start);
        joined := ApplySyncedBreakStart(r, env, peer, start).after;
      }
      MergeKeepsBounded(joined.scheduler, p);
    case SchedulerReset => ResetSendable(r, Suppress);
    case DisableFor(duration) => DisableSendable(r, env, duration, Suppress);
    case DisableUntilRestart => DisableSendable(r, env, 0, Suppress);
    case Enable => EnableSendable(r, Suppress);
    case LockAfterCurrentBreak => BreakControlSendable(r, env, Suppress);
  }

  lemma TransportSendable(r: Runtime, env: Env, t: TransportEvent)
    requires Sendable(r)
    ensures Sendable(HandleTransport(r, env, t).after)
  {
    match t
    case Domain(peer, e) => SyncSendable(r, env, peer, e);
    case PeerAuthenticated(_) => BoundedPositionIsValid(r.scheduler);
    case _ =>
  }

  lemma TurnSendable(r: Runtime, turn: Turn)
    requires Sendable(r) && NonZero(turn.input)
    ensures Sendable(TakeTurn(r, turn).after)
  {
    match turn.input
    case Local(e) => LocalSendable(Drained(r), turn.env, e);
    case Sync(t) => TransportSendable(Drained(r), turn.env, t);
  }

  /** The state can be described to a peer, whatever was sent so far. */
  predicate Describable(r: Runtime) { Bounded(r.scheduler) && Presentable(r.current) }

  lemma ZeroActiveDescribable(r: Runtime, env: Env)
    requires r.Valid() && Describable(r)
    ensures Describable(ObserveActive(r, env, 0, Forward, Forward).after)
  {
  }

  lemma ZeroDisableDescribable(r: Runtime, env: Env)
    requires Describable(r)
    ensures Describable(DisableForDuration(r, env, 0, Forward).after)
  {
  }

  /** Any input keeps it so, a zero duration too: that is only never to be sent. */
  lemma TurnDescribable(r: Runtime, turn: Turn)
    requires r.Valid() && Describable(r)
    ensures Describable(TakeTurn(r, turn).after)
  {
    if NonZero(turn.input) {
      assert Drained(r.(sent := [])) == Drained(r);
      TurnSendable(r.(sent := []), turn);
    } else if turn.input.event.ActiveElapsed? {
      ZeroActiveDescribable(Drained(r), turn.env);
    } else {
      ZeroDisableDescribable(Drained(r), turn.env);
    }
  }

  lemma {:induction false} RunDescribable(r: Runtime, turns: seq<Turn>)
    requires r.Valid() && Describable(r)
    ensures Describable(Run(r, turns).after)
    decreases |turns|
  {
    if turns != [] {
      TurnDescribable(r, turns[0]);
      if TakeTurn(r, turns[0]).running { RunDescribable(TakeTurn(r, turns[0]).after, turns[1..]); }
    }
  }

  lemma {:induction false} RunSendable(r: Runtime, turns: seq<Turn>)
    requires Sendable(r) && forall t | t in turns :: NonZero(t.input)
    ensures Sendable(Run(r, turns).after)
    decreases |turns|
  {
    if turns != [] {
      TurnSendable(r, turns[0]);
      if TakeTurn(r, turns[0]).running {
        RunSendable(TakeTurn(r, turns[0]).after, turns[1..]);
      }
    }
  }

  /**
   * From start-up, whatever peers send, each output is a valid event; a peer that decodes it
   * accepts it too, unless it carries a duration below a millisecond.
   */
  lemma EverySentEventIsValid(schedule: Schedule, localPeer: Option<PeerId>, turns: seq<Turn>, o: Outgoing)
    requires ValidSchedule(schedule) && forall t | t in turns :: NonZero(t.input)
    requires o in Run(New(schedule, localPeer), turns).after.sent
    ensures ValidEvent(o.event)
    ensures ValidEvent(OnWire(o.event)) <==> !SubMillisecond(o.event)
  {
    RunSendable(New(schedule, localPeer), turns);
    ValidAfterWireIff(o.event);
  }
}
