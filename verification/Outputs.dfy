/** What a daemon sends to its peers, and shows of rejected ones: for each input exactly. */
module Outputs {
  import opened Base
  import opened Schedules
  import opened Protocol
  import opened RuntimeModel
  import opened RuntimeRuns
  import S = SchedulerModel
  import Network

  /** The break shown, as a start that others can join, with the scheduler where the start left it. */
  function StartOf(r: Runtime): SyncEvent
    requires r.current.Some?
  {
    var b := r.current.value;
    BreakStarted(b.name, b.message, b.startedAtMs, b.origin,
                 Position(r.scheduler.slot, r.scheduler.activeElapsed, r.scheduler.last))
  }

  /** The state as a newcomer is told it. */
  predicate Describes(r: Runtime, e: SyncEvent) {
    && e.SchedulerState? && e.slot == r.scheduler.slot && e.activeElapsed == r.scheduler.activeElapsed
    && e.last == r.scheduler.last && (e.activeBreak.Some? <==> r.current.Some?)
    && (e.activeBreak.Some? ==>
          var shown, told := r.current.value, e.activeBreak.value;
          && told.name == shown.name && told.message == shown.message && told.origin == shown.origin
          && told.startedAtMs == shown.startedAtMs && told.lockAfter == shown.lockAfter)
  }

  /** A break of the daemon's own has just come up. */
  predicate Began(r: Runtime, after: Runtime) { r.current.None? && after.current.Some? }

  predicate Moved(r: Runtime, after: Runtime) {
    r.scheduler.slot != after.scheduler.slot || r.scheduler.activeElapsed != after.scheduler.activeElapsed
    || r.scheduler.last != after.scheduler.last
  }

  function If(condition: bool, e: SyncEvent): seq<Outgoing> { if condition then [Broadcast(e)] else [] }

  /** What is sent for a local event, told from the states before and after it. */
  function Announced(r: Runtime, e: RuntimeEvent, after: Runtime): seq<Outgoing> {
    match e
    case ActiveElapsed(elapsed) =>
      [Broadcast(ActiveTimeElapsed(elapsed))] + (if Began(r, after) then [Broadcast(StartOf(after))] else [])
    case StartManual(_) => if Began(r, after) then [Broadcast(StartOf(after))] else []
    case IdleElapsed(elapsed) => If(CountReached(r, elapsed) && Moved(r, after), SchedulerReset)
    case LockAfterBreak => If(r.current.Some? && !r.current.value.lockAfter, LockAfterCurrentBreak)
    case DisableBreaks(For(duration)) => If(true, DisableFor(duration))
    case DisableBreaks(UntilRestartRequest) => If(true, DisableUntilRestart)
    case EnableBreaks => If(true, Enable)
    case WallClockElapsed(_) => []
    case BreakFinished => []
    case BreakStartFailed => []
    case Shutdown => []
  }

  /** The longer of the idle timeouts is reached by this stretch. */
  predicate CountReached(r: Runtime, elapsed: nat) {
    var i := r.breakCountIdleReset;
    i.timeout.Some? && !i.triggered && i.timeout.value <= i.idleElapsed + elapsed
  }

  predicate SendsStart(r: Runtime, step: Step) {
    step.running ==> step.after.sent == r.sent + if Began(r, step.after) then [Broadcast(StartOf(step.after))] else []
  }

  lemma StartAnnounces(r: Runtime, env: Env, b: ScheduledBreak, at: nat)
    requires r.current.None?
    ensures SendsStart(r, StartBreakAt(r, env, b, at, Forward))
  {
  }

  lemma AdvanceAnnounces(r: Runtime, env: Env, elapsed: nat)
    requires r.Valid() && Joint(r)
    ensures SendsStart(r, AdvanceActive(r, env, elapsed, Forward))
  {
    var o := S.AdvanceActive(r.scheduler, elapsed, env.pick);
    if o.started.Some? {
      StartAnnounces(ClearNotice(r.(scheduler := o.after)), env, o.started.value, env.startNow);
    }
  }

  lemma ActiveAnnounces(r: Runtime, env: Env, elapsed: nat, a: Propagation)
    requires r.Valid() && Joint(r) && r.sent == [] && ObserveActive(r, env, elapsed, a, Forward).running
    ensures var after := ObserveActive(r, env, elapsed, a, Forward).after;
      after.sent == (if a.Forward? then [Broadcast(ActiveTimeElapsed(elapsed))] else [])
                    + (if Began(r, after) then [Broadcast(StartOf(after))] else [])
  {
    var tracked := BroadcastIfNeeded(ResetIdleTracking(r), a, ActiveTimeElapsed(elapsed));
    AdvanceAnnounces(tracked.(activity := Spend(r.activity, elapsed)), env, Credited(r.activity, elapsed));
  }

  lemma ManualAnnounces(r: Runtime, env: Env, name: string)
    requires r.Valid() && Joint(r) && r.sent == [] && StartManualBreak(r, env, name, Forward).running
    ensures var after := StartManualBreak(r, env, name, Forward).after;
      after.sent == if Began(r, after) then [Broadcast(StartOf(after))] else []
  {
    var o := S.StartManualBreak(r.scheduler, name, env.pick);
    if o.started.Some? { StartAnnounces(r.(scheduler := o.after), env, o.started.value, env.startNow); }
  }

  lemma IdleAnnounces(r: Runtime, elapsed: nat)
    requires r.Valid() && r.sent == []
    ensures var after := AdvanceIdle(r, elapsed);
      after.sent == If(CountReached(r, elapsed) && Moved(r, after), SchedulerReset)
  {
  }

  lemma DisableAnnounces(r: Runtime, env: Env, request: DisableRequest)
    requires r.Valid() && r.sent == [] && HandleEvent(r, env, DisableBreaks(request)).running
    ensures HandleEvent(r, env, DisableBreaks(request)).after.sent
         == [Broadcast(if request.For? then DisableFor(request.duration) else DisableUntilRestart)]
  {
  }

  lemma EndAnnounces(r: Runtime, env: Env)
    requires r.sent == []
    ensures Finish(r, env).after.sent == [] && FailStart(r).sent == []
    ensures EnableScheduler(r, Forward).sent == [Broadcast(Enable)]
    ensures RequestLock(r, env, Forward).running ==>
      RequestLock(r, env, Forward).after.sent == If(r.current.Some? && !r.current.value.lockAfter, LockAfterCurrentBreak)
  {
  }

  lemma ClockAnnounces(r: Runtime, env: Env, elapsed: nat)
    requires r.sent == []
    ensures AdvanceWallClock(r, env, elapsed).sent == [] && ClearNotice(r).sent == []
  {
  }

  /** Everything a local input makes the daemon send, as long as the backend takes its commands. */
  lemma LocalSendsExactly(r: Runtime, env: Env, e: RuntimeEvent)
    requires r.Valid() && Joint(r)
    ensures var step := TakeTurn(r, Turn(env, Local(e)));
      step.running || e == Shutdown ==> step.after.sent == Announced(r, e, step.after)
  {
    var d := Drained(r);
    var step := HandleEvent(d, env, e);
    if step.running || e == Shutdown {
      match e
      case ActiveElapsed(elapsed) => ActiveAnnounces(d, env, elapsed, Forward);
      case StartManual(name) => ManualAnnounces(d, env, name);
      case IdleElapsed(elapsed) => IdleAnnounces(d, elapsed);
      case DisableBreaks(request) => DisableAnnounces(d, env, request);
      case WallClockElapsed(elapsed) => ClockAnnounces(d, env, elapsed);
      case Shutdown => ClockAnnounces(d, env, 0);
      case BreakStartFailed => EndAnnounces(d, env);
      case BreakFinished => EndAnnounces(d, env);
      case LockAfterBreak => EndAnnounces(d, env);
      case EnableBreaks => EndAnnounces(d, env);
    }
  }

  /**
   * And what it sends for anything a peer or the transport brings: its state to a peer that has just
   * arrived, and a start of its own that a peer's active time set off. Nothing else is passed on.
   */
  lemma SyncSendsExactly(r: Runtime, env: Env, t: TransportEvent)
    requires r.Valid() && Joint(r)
    ensures var step := TakeTurn(r, Turn(env, Sync(t)));
      match t
      case PeerAuthenticated(peer) =>
        && |step.after.sent| == 1 && step.after.sent[0].Directed? && step.after.sent[0].peer == peer
        && Describes(r, step.after.sent[0].event) && step.after == Drained(r).(sent := step.after.sent)
      case Domain(_, ActiveTimeElapsed(_)) =>
        step.running ==> step.after.sent == if Began(r, step.after) then [Broadcast(StartOf(step.after))] else []
      case _ => step.after.sent == []
  {
    match t
    case Domain(peer, e) => DomainSends(Drained(r), env, peer, e);
    case _ =>
  }

  lemma DomainSends(r: Runtime, env: Env, peer: PeerId, e: SyncEvent)
    requires r.Valid() && Joint(r) && r.sent == []
    ensures var step := HandleSyncEvent(r, env, peer, e);
      if e.ActiveTimeElapsed? then
        step.running ==> step.after.sent == if Began(r, step.after) then [Broadcast(StartOf(step.after))] else []
      else step.after.sent == []
  {
    match e
    case ActiveTimeElapsed(elapsed) =>
      if HandleSyncEvent(r, env, peer, e).running { ActiveAnnounces(r, env, elapsed, Suppress); }
    case _ => Network.RemoteEventIsQuiet(r, env, peer, e);
  }

  // ----- active time -----

  predicate SameButSent(a: Step, b: Step) { a.running == b.running && a.after == b.after.(sent := a.after.sent) }

  lemma StartIgnoresSent(r: Runtime, q: Runtime, env: Env, b: ScheduledBreak, at: nat)
    requires r == q.(sent := r.sent)
    ensures SameButSent(StartBreakAt(r, env, b, at, Forward), StartBreakAt(q, env, b, at, Forward))
  {
  }

  lemma AdvanceIgnoresSent(r: Runtime, q: Runtime, env: Env, elapsed: nat)
    requires r.Valid() && r == q.(sent := r.sent)
    ensures SameButSent(AdvanceActive(r, env, elapsed, Forward), AdvanceActive(q, env, elapsed, Forward))
  {
    var o := S.AdvanceActive(r.scheduler, elapsed, env.pick);
    if o.started.Some? {
      StartIgnoresSent(ClearNotice(r.(scheduler := o.after)), ClearNotice(q.(scheduler := o.after)), env,
                       o.started.value, env.startNow);
    }
  }

  lemma ObserveIgnoresSent(r: Runtime, env: Env, elapsed: nat)
    requires r.Valid()
    ensures SameButSent(ObserveActive(r, env, elapsed, Suppress, Forward), ObserveActive(r, env, elapsed, Forward, Forward))
  {
    var idle := ResetIdleTracking(r).(activity := Spend(r.activity, elapsed));
    var told := idle.(sent := r.sent + [Broadcast(ActiveTimeElapsed(elapsed))]);
    AdvanceIgnoresSent(idle, told, env, Credited(r.activity, elapsed));
    assert BroadcastIfNeeded(ResetIdleTracking(r), Forward, ActiveTimeElapsed(elapsed))
           .(activity := Spend(r.activity, elapsed)) == told;
  }

  /** Active time counts the same whoever was active; only who is told of it differs. */
  lemma RemoteActivityCounts(r: Runtime, env: Env, peer: PeerId, elapsed: nat)
    requires r.Valid()
    ensures SameButSent(TakeTurn(r, Turn(env, Sync(Domain(peer, ActiveTimeElapsed(elapsed))))),
                        TakeTurn(r, Turn(env, Local(ActiveElapsed(elapsed)))))
  {
    ObserveIgnoresSent(Drained(r), env, elapsed);
  }

  // ----- peers turned away -----

  predicate SameTimeouts(r: Runtime, after: Runtime) {
    && after.activeTimeIdleReset.timeout == r.activeTimeIdleReset.timeout
    && after.breakCountIdleReset.timeout == r.breakCountIdleReset.timeout
  }

  /** No peer is reported as turned away, and none is noted; nor does an idle timeout change. */
  predicate Quiet(r: Runtime, after: Runtime, peer: PeerId) {
    && SameTimeouts(r, after) && after.rejectedPeers == r.rejectedPeers
    && (ShowPeerRejected(peer) in after.ui <==> ShowPeerRejected(peer) in r.ui)
  }

  lemma NoticeIsQuiet(r: Runtime, peer: PeerId)
    requires r.Valid()
    ensures Quiet(r, NotifyUpcomingBreak(r), peer) && Quiet(r, ClearNotice(r), peer)
  {
  }

  lemma StartIsQuiet(r: Runtime, env: Env, b: ScheduledBreak, at: nat, propagation: Propagation, peer: PeerId)
    ensures Quiet(r, StartBreakAt(r, env, b, at, propagation).after, peer)
    ensures Quiet(r, ReplaceCurrentBreak(r, env, b, at).after, peer)
  {
  }

  lemma AdvanceIsQuiet(r: Runtime, env: Env, elapsed: nat, propagation: Propagation, peer: PeerId)
    requires r.Valid()
    ensures Quiet(r, AdvanceActive(r, env, elapsed, propagation).after, peer)
  {
    var o := S.AdvanceActive(r.scheduler, elapsed, env.pick);
    var advanced := r.(scheduler := o.after);
    NoticeIsQuiet(advanced, peer);
    if o.started.Some? { StartIsQuiet(ClearNotice(advanced), env, o.started.value, env.startNow, propagation, peer); }
  }

  lemma ObserveIsQuiet(r: Runtime, env: Env, elapsed: nat, a: Propagation, peer: PeerId)
    requires r.Valid()
    ensures Quiet(r, ObserveActive(r, env, elapsed, a, Forward).after, peer)
  {
    var tracked := BroadcastIfNeeded(ResetIdleTracking(r), a, ActiveTimeElapsed(elapsed));
    AdvanceIsQuiet(tracked.(activity := Spend(r.activity, elapsed)), env, Credited(r.activity, elapsed), Forward, peer);
  }

  lemma ManualIsQuiet(r: Runtime, env: Env, name: string, peer: PeerId)
    requires r.Valid()
    ensures Quiet(r, StartManualBreak(r, env, name, Forward).after, peer)
  {
    var o := S.StartManualBreak(r.scheduler, name, env.pick);
    if o.started.Some? {
      StartIsQuiet(r.(scheduler := o.after), env, o.started.value, env.startNow, Forward, peer);
    }
  }

  lemma SyncedStartIsQuiet(r: Runtime, env: Env, sender: PeerId, start: SyncedStart, peer: PeerId)
    ensures Quiet(r, ApplySyncedBreakStart(r, env, sender, start).after, peer)
  {
    var joined := S.StartActiveSyncedBreak(r.scheduler, start.name, start.origin, env.pick);
    if r.current.None? && joined.started.Some? {
      var lock := if start.lockAfter.Some? then start.lockAfter.value else joined.started.value.autolock;
      StartIsQuiet(r.(scheduler := S.MergeSyncedPosition(joined.after, start.position)), env,
                   joined.started.value.(message := start.message, autolock := lock), start.startedAtMs, Suppress, peer);
    }
    var o := S.ReplacementSyncedBreak(r.scheduler, start.name, start.origin, env.pick);
    if r.current.Some? && o.started.Some? {
      var lock := ReplacedLock(start, r.current.value, o.started.value.autolock);
      StartIsQuiet(r.(scheduler := S.MergeSyncedPosition(o.after, start.position)), env,
                   o.started.value.(message := start.message, autolock := lock), start.startedAtMs, Suppress, peer);
    }
  }

  lemma EndIsQuiet(r: Runtime, env: Env, propagation: Propagation, peer: PeerId)
    ensures Quiet(r, Finish(r, env).after, peer) && Quiet(r, FailStart(r), peer)
    ensures Quiet(r, RequestLock(r, env, propagation).after, peer) && Quiet(r, EnableScheduler(r, propagation), peer)
  {
  }

  lemma ClockIsQuiet(r: Runtime, env: Env, elapsed: nat, propagation: Propagation, peer: PeerId)
    ensures Quiet(r, ApplySchedulerReset(r, propagation), peer) && Quiet(r, AdvanceWallClock(r, env, elapsed), peer)
  {
  }

  lemma IdleIsQuiet(r: Runtime, elapsed: nat, peer: PeerId)
    ensures Quiet(r, AdvanceIdle(r, elapsed), peer)
  {
  }

  lemma OffIsQuiet(r: Runtime, env: Env, peer: PeerId)
    ensures Quiet(r, DisableScheduler(r, env).after, peer)
  {
  }

  lemma DisableIsQuiet(r: Runtime, env: Env, duration: nat, propagation: Propagation, peer: PeerId)
    ensures Quiet(r, DisableForDuration(r, env, duration, propagation).after, peer)
  {
    OffIsQuiet(r.(disableMode := Timed(env.startNow + Quotient(duration, NANOS_PER_MILLI))), env, peer);
  }

  lemma DisableUntilIsQuiet(r: Runtime, env: Env, propagation: Propagation, peer: PeerId)
    ensures Quiet(r, DisableUntil(r, env, propagation).after, peer)
  {
    OffIsQuiet(r.(disableMode := UntilRestart), env, peer);
  }

  lemma LocalIsQuiet(r: Runtime, env: Env, e: RuntimeEvent, peer: PeerId)
    requires r.Valid()
    ensures Quiet(r, HandleEvent(r, env, e).after, peer)
  {
    match e
    case ActiveElapsed(elapsed) => ObserveIsQuiet(r, env, elapsed, Forward, peer);
    case StartManual(name) => ManualIsQuiet(r, env, name, peer);
    case IdleElapsed(elapsed) => IdleIsQuiet(r, elapsed, peer);
    case WallClockElapsed(elapsed) => ClockIsQuiet(r, env, elapsed, Forward, peer);
    case DisableBreaks(For(duration)) => DisableIsQuiet(r, env, duration, Forward, peer);
    case DisableBreaks(UntilRestartRequest) => DisableUntilIsQuiet(r, env, Forward, peer);
    case BreakStartFailed => EndIsQuiet(r, env, Forward, peer);
    case BreakFinished => EndIsQuiet(r, env, Forward, peer);
    case LockAfterBreak => EndIsQuiet(r, env, Forward, peer);
    case EnableBreaks => EndIsQuiet(r, env, Forward, peer);
    case Shutdown => NoticeIsQuiet(r, peer);
  }

  lemma DomainIsQuiet(r: Runtime, env: Env, sender: PeerId, e: SyncEvent, peer: PeerId)
    requires r.Valid()
    ensures Quiet(r, HandleSyncEvent(r, env, sender, e).after, peer)
  {
    match e
    case ActiveTimeElapsed(elapsed) => ObserveIsQuiet(r, env, elapsed, Suppress, peer);
    case BreakStarted(name, message, at, origin, p) =>
      SyncedStartIsQuiet(r, env, sender, SyncedStart(name, message, at, origin, p, None), peer);
    case SchedulerState(slot, elapsed, last, b) =>
      if b.Some? {
        SyncedStartIsQuiet(r, env, sender, SyncedStart(b.value.name, b.value.message, b.value.startedAtMs,
          b.value.origin, Position(slot, elapsed, last), Some(b.value.lockAfter)), peer);
      }
    case DisableFor(duration) => DisableIsQuiet(r, env, duration, Suppress, peer);
    case DisableUntilRestart => DisableUntilIsQuiet(r, env, Suppress, peer);
    case SchedulerReset => ClockIsQuiet(r, env, 0, Suppress, peer);
    case Enable => EndIsQuiet(r, env, Suppress, peer);
    case LockAfterCurrentBreak => EndIsQuiet(r, env, Suppress, peer);
  }

  predicate Rejects(input: Input, peer: PeerId) { input == Sync(PeerRejected(peer)) }

  /** A peer is reported only when it is turned away for the first time, and then alone and once. */
  lemma TurnRejects(r: Runtime, turn: Turn, peer: PeerId)
    requires r.Valid()
    ensures var after := TakeTurn(r, turn).after;
      && SameTimeouts(r, after)
      && (peer in after.rejectedPeers <==> peer in r.rejectedPeers || Rejects(turn.input, peer))
      && (Rejects(turn.input, peer) && peer !in r.rejectedPeers ==> after.ui == [ShowPeerRejected(peer)])
      && (ShowPeerRejected(peer) in after.ui <==> Rejects(turn.input, peer) && peer !in r.rejectedPeers)
  {
    match turn.input
    case Local(e) => LocalIsQuiet(Drained(r), turn.env, e, peer);
    case Sync(Domain(sender, e)) => DomainIsQuiet(Drained(r), turn.env, sender, e, peer);
    case Sync(_) =>
  }

  /** Inputs of a run that were handled while the daemon went on. */
  function ReportsOf(r: Runtime, turns: seq<Turn>, peer: PeerId): nat
    requires r.Valid()
    decreases |turns|
  {
    if turns == [] then 0
    else
      var first := TakeTurn(r, turns[0]);
      (if ShowPeerRejected(peer) in first.after.ui then 1 else 0)
      + if first.running then ReportsOf(first.after, turns[1..], peer) else 0
  }

  predicate EverRejects(r: Runtime, turns: seq<Turn>, peer: PeerId)
    requires r.Valid()
    decreases |turns|
  {
    turns != [] &&
    (Rejects(turns[0].input, peer)
     || (TakeTurn(r, turns[0]).running && EverRejects(TakeTurn(r, turns[0]).after, turns[1..], peer)))
  }

  /** Over every run a peer is reported once if it is ever turned away, however often, and else not. */
  lemma {:induction false} RejectedPeerIsShownOnce(r: Runtime, turns: seq<Turn>, peer: PeerId)
    requires r.Valid()
    ensures ReportsOf(r, turns, peer) == if peer !in r.rejectedPeers && EverRejects(r, turns, peer) then 1 else 0
    decreases |turns|
  {
    if turns != [] {
      TurnRejects(r, turns[0], peer);
      if TakeTurn(r, turns[0]).running { RejectedPeerIsShownOnce(TakeTurn(r, turns[0]).after, turns[1..], peer); }
    }
  }
}
