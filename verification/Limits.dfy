/**
 * Inputs that reach the states in which a property fails. When exactly each property holds is proved
 * beside it: `PredictionExactIff`, `SafeOpIffSound`, `TwoPeersConvergeIff`, `LockConvergesIff`
 * and `InStepIff`.
 */
module Limits {
  import opened Base
  import opened Names
  import opened Schedules
  import opened Protocol
  import opened RuntimeModel
  import B = BoundedGap
  import C = Connections
  import L = Lockstep
  import S = SchedulerModel
  import A = Announcements
  import V = Convergence
  import P = Prediction
  import W = WorkerModel

  // ----- prediction -----

  /** A snapshot that validation accepts makes the slot of a daemon just started overfull. */
  lemma SnapshotOverfillsSlot(schedule: Schedule, localPeer: Option<PeerId>, env: Env, peer: PeerId)
    requires ValidSchedule(schedule) && forall r | r in schedule.rules :: 2 <= r.interval
    ensures var e := SchedulerState(0, 2 * schedule.afterActive, map[], None);
      var after := HandleSyncEvent(New(schedule, localPeer), env, peer, e).after.scheduler;
      ValidEvent(e) && after.state == S.Ready(S.Active) && !P.Predictable(after)
  {
    var s := S.New(schedule);
    var first := NextDueAttained(s.Rules(), s.last, 0);
    RuleFacts(s.Rules(), first);
    assert S.NextSlot(s) == first.interval;
    var after := S.MergeSyncedPosition(s, Position(0, 2 * schedule.afterActive, map[]));
    assert after.last == s.last;
  }

  // ----- small schedules -----

  const MINUTE: nat := 60_000_000_000

  function Named(name: string, interval: nat, autolock: bool): Rule { Rule(name, interval, MINUTE, ["Rest"], autolock) }

  /** One break type, due at every slot. */
  function Single(): Schedule { Schedule(1, None, None, [Named("a", 1, false)]) }

  /** A long break type that locks, due at every fourth slot, and a short one due at every slot. */
  function Double(): Schedule { Schedule(1, None, None, [Named("b", 4, true), Named("a", 1, false)]) }

  lemma SchedulesAreValid()
    ensures ValidSchedule(Single()) && ValidSchedule(Double())
    ensures FindRule(Double().rules, "b") == Some(Named("b", 4, true))
    ensures FindRule(Double().rules, "a") == Some(Named("a", 1, false))
    ensures RuleNames(Single().rules) == {"a"} && RuleNames(Double().rules) == {"a", "b"}
  {
    ValidNameMeans("a");
    ValidNameMeans("b");
    assert Double().rules[1..] == [Named("a", 1, false)];
    assert Double().rules[1..][1..] == [];
    assert Single().rules[1..] == [];
  }

  function At(now: nat): Env { Env(now, now, 0, true) }

  // ----- two peers -----

  /** Shows a manual break at slot two, which it has from a peer. */
  function ManualPeer(): Runtime
    requires ValidSchedule(Single())
  {
    var merged := HandleSyncEvent(New(Single(), Some(1)), At(0), 2, SchedulerState(2, 0, map["a" := 2], None)).after;
    HandleEvent(merged, At(10), StartManual("a")).after
  }

  /** Shows the scheduled break of slot one, which it started earlier. */
  function ScheduledPeer(): Runtime
    requires ValidSchedule(Single())
  {
    HandleEvent(New(Single(), Some(2)), At(5), ActiveElapsed(1)).after
  }

  lemma ManualPeerShows()
    ensures ValidSchedule(Single())
    ensures var r := ManualPeer();
      && r.Valid() && r.localPeer == Some(1) && r.scheduler.schedule == Single() && r.scheduler.slot == 2
      && r.current == Some(CurrentBreak("a", "Rest", Manual, false, 10))
  {
    SchedulesAreValid();
    var start := New(Single(), Some(1));
    var merged := HandleSyncEvent(start, At(0), 2, SchedulerState(2, 0, map["a" := 2], None)).after;
    assert merged.scheduler.slot == 2 && merged.scheduler.state == S.Ready(S.Active);
    assert FindRule(Single().rules, "a") == Some(Named("a", 1, false));
    RuleFacts(Single().rules, S.NextRule(merged.scheduler));
    assert S.ManualBreakIsAvailable(merged.scheduler, "a");
  }

  lemma ScheduledPeerShows()
    ensures ValidSchedule(Single())
    ensures var r := ScheduledPeer();
      && r.Valid() && r.localPeer == Some(2) && r.scheduler.schedule == Single()
      && r.current == Some(CurrentBreak("a", "Rest", Scheduled(1), false, 5))
  {
    SchedulesAreValid();
    var s := S.New(Single());
    assert S.NextSlot(s) == 1;
    assert S.NextRule(s) == Named("a", 1, false);
    S.AdvanceStarts(s, 1, 0, 0);
  }

  /** The scheduled break began earlier and wins, but its slot has passed where the manual one is shown. */
  lemma WinnerIsRefused()
    ensures ValidSchedule(Single())
    ensures var a, b := ManualPeer(), ScheduledPeer();
      var startA := SyncedStart("a", "Rest", 10, Manual, S.PositionOf(a.scheduler), None);
      var startB := SyncedStart("a", "Rest", 5, Scheduled(1), S.PositionOf(b.scheduler), None);
      && a.current.Some? && V.Shows(a.current.value, startA) && b.current.Some? && V.Shows(b.current.value, startB)
      && V.Refused(a, 2, startB)
      && var afterA := ApplySyncedBreakStart(a, At(11), 2, startB).after.current;
         var afterB := ApplySyncedBreakStart(b, At(11), 1, startA).after.current;
         afterA.Some? && afterB.Some? && !V.SameBreak(afterA.value, afterB.value)
  {
    ManualPeerShows();
    ScheduledPeerShows();
    var a, b := ManualPeer(), ScheduledPeer();
    var startA := SyncedStart("a", "Rest", 10, Manual, S.PositionOf(a.scheduler), None);
    var startB := SyncedStart("a", "Rest", 5, Scheduled(1), S.PositionOf(b.scheduler), None);
    assert FindRule(Single().rules, "a") == Some(Named("a", 1, false));
    V.TwoPeersConvergeIff(a, b, 1, 2, At(11), At(11), startA, startB);
  }

  // ----- locking -----

  function StartOf(name: string, slot: nat): V.Delivery {
    V.Delivery(At(1), 2, SyncedStart(name, "Rest", 0, Scheduled(slot), Position(slot, 0, map[]), None))
  }

  /** The long break of slot four and the short one of slot five, heard of in either order. */
  lemma LocksDiffer()
    ensures ValidSchedule(Double())
    ensures var r, long, short := New(Double(), Some(1)), StartOf("b", 4), StartOf("a", 5);
      var longFirst := V.Deliver(V.Deliver(r, long), short).current;
      var shortFirst := V.Deliver(V.Deliver(r, short), long).current;
      && longFirst.Some? && shortFirst.Some?
      && longFirst.value.lockAfter != shortFirst.value.lockAfter
  {
    SchedulesAreValid();
    V.LockConvergesIff(New(Double(), Some(1)), StartOf("b", 4), StartOf("a", 5));
  }

  // ----- announcements -----

  function HelloFrom(p: C.PeerId): W.Input { W.Received(5, Some(Message(PROTOCOL_VERSION, p, 0, PeerHello(true)))) }

  function Accepted(): W.Worker { W.Next(W.New(0), W.AcceptedFrom(5, true)) }

  function Greeted(): W.Worker { W.Next(Accepted(), HelloFrom(1)) }

  lemma GreetedHoldsFirst()
    ensures A.InStep(Greeted()) && C.PeerOf(Greeted().tracker.connections, 5) == Some(1)
  {
    assert Accepted().tracker.connections == [C.Connection(5, C.Incoming, None)];
    A.InStepIff(W.New(0), W.AcceptedFrom(5, true));
    A.InStepIff(Accepted(), HelloFrom(1));
    var named := C.SetPeer(Accepted().tracker.connections, 5, 1);
    assert named == [C.Connection(5, C.Incoming, Some(1))];
    assert C.EndpointToKeep(0, named, 1) == Some(5);
    assert Greeted().tracker.connections == named;
  }

  lemma RunOfThree(a: W.Input, b: W.Input, c: W.Input, w: W.Worker)
    ensures W.Run(w, [a, b, c]) == W.Next(W.Next(W.Next(w, a), b), c)
  {
    assert [a, b, c][1..] == [b, c] && [b, c][1..] == [c] && [c][1..] == [];
    assert W.Run(W.Next(w, a), [b, c]) == W.Run(W.Next(W.Next(w, a), b), [c]);
  }

  /** An accepted connection on which two peers say hello one after the other. */
  lemma SecondHelloLosesFirst()
    ensures !A.InStep(W.Run(W.New(0), [W.AcceptedFrom(5, true), HelloFrom(1), HelloFrom(2)]))
  {
    GreetedHoldsFirst();
    A.InStepIff(Greeted(), HelloFrom(2));
    RunOfThree(W.AcceptedFrom(5, true), HelloFrom(1), HelloFrom(2), W.New(0));
  }

  // ----- a reset during a break -----

  /** Has come to slot four from a peer. */
  function MergedPeer(): Runtime
    requires ValidSchedule(Double())
    ensures MergedPeer().Valid()
  {
    HandleSyncEvent(New(Double(), Some(1)), At(0), 2, SchedulerState(4, 0, map["a" := 4, "b" := 4], None)).after
  }

  /** Then starts the break of slot five. */
  function StartedPeer(): Runtime
    requires ValidSchedule(Double())
    ensures StartedPeer().Valid()
  {
    HandleEvent(MergedPeer(), At(5), ActiveElapsed(1)).after
  }

  /** And is reset by a peer while it shows it. */
  function ResetPeer(): Runtime
    requires ValidSchedule(Double())
  {
    HandleSyncEvent(StartedPeer(), At(6), 2, SchedulerReset).after
  }

  lemma MergedPeerIs()
    ensures ValidSchedule(Double())
    ensures MergedPeer().scheduler == S.Scheduler(Double(), 0, 4, map["a" := 4, "b" := 4], S.Ready(S.Active))
    ensures MergedPeer().current.None? && !MergedPeer().activity.wallClockSeen
  {
    SchedulesAreValid();
    assert MergedPeer().scheduler.last == map["a" := 4, "b" := 4];
  }

  lemma NextAtSlotFour()
    ensures ValidSchedule(Double())
    ensures var s := MergedPeer().scheduler;
      s.Valid() && S.NextSlot(s) == 5 && S.NextRule(s) == Named("a", 1, false)
  {
    MergedPeerIs();
    SchedulesAreValid();
    var s := MergedPeer().scheduler;
    assert s.Rules()[1..] == [Named("a", 1, false)];
    assert NextDue(s.Rules()[1..], s.last, 4) == 5;
    assert DueRule(s.Rules(), s.last, 5) == DueRule(s.Rules()[1..], s.last, 5) == Some(Named("a", 1, false));
  }

  lemma StartedPeerIs()
    ensures ValidSchedule(Double())
    ensures StartedPeer().current == Some(CurrentBreak("a", "Rest", Scheduled(5), false, 5))
    ensures StartedPeer().scheduler.last.Keys == {"a", "b"}
  {
    SchedulesAreValid();
    MergedPeerIs();
    NextAtSlotFour();
    S.AdvanceStarts(MergedPeer().scheduler, 1, 0, 0);
  }

  lemma ResetKeepsCurrent(r: Runtime, env: Env, peer: PeerId)
    requires r.Valid()
    ensures var after := HandleSyncEvent(r, env, peer, SchedulerReset).after;
      after.scheduler == S.ResetPosition(r.scheduler) && after.current == r.current
  {
  }

  lemma ResetPeerSends()
    ensures ValidSchedule(Double())
    ensures SchedulerStateEvent(ResetPeer())
         == SchedulerState(0, 0, map["a" := 0, "b" := 0], Some(ActiveBreak("a", "Rest", 5, Scheduled(5), false)))
    ensures ValidEvent(SchedulerStateEvent(ResetPeer()))
  {
    StartedPeerIs();
    ResetKeepsCurrent(StartedPeer(), At(6), 2);
    assert S.ResetPosition(StartedPeer().scheduler).last == map["a" := 0, "b" := 0];
    ValidNameMeans("a");
    ValidNameMeans("b");
  }

  /** What the peer sends with its break: a position that is reset. */
  function ResetPosition(): Position { Position(0, 0, map["a" := 0, "b" := 0]) }

  /** A ready daemon that hears of a running break joins it and takes over the position, twice. */
  lemma SnapshotJoins(r: Runtime, env: Env, peer: PeerId, p: Position, b: ActiveBreak, rule: Rule)
    requires r.Valid() && r.current.None? && r.scheduler.state.Ready? && env.backendUp && b.origin != Scheduled(0)
    requires FindRule(r.scheduler.Rules(), b.name) == Some(rule)
    requires b.origin.Scheduled? ==> r.scheduler.slot <= b.origin.slot
    requires Remaining(env.laterNow, b.startedAtMs, rule.duration) > 0
    ensures var joined := B.Adopted(S.StartActiveSyncedBreak(r.scheduler, b.name, b.origin, env.pick), p);
      ApplySyncedSchedulerState(r, env, peer, p, Some(b)).after.scheduler == S.MergeSyncedPosition(joined, p)
  {
    L.ReadySchedulerTakesBreak(r.scheduler, b.name, b.origin, env.pick, rule);
    var start := SyncedStart(b.name, b.message, b.startedAtMs, b.origin, p, Some(b.lockAfter));
    assert ApplySyncedBreakStart(r, env, peer, start) == StartSyncedBreak(r, env, start);
    assert StartSyncedBreak(r, env, start).running;
  }

  /** What it then sends is valid, and whoever has just started and hears it is overdue for the long break. */
  lemma ResetLeavesNewcomerOverdue()
    ensures ValidSchedule(Double())
    ensures var newcomer := New(Double(), Some(2));
      && B.NotOverdue(newcomer.scheduler)
      && !B.NotOverdue(HandleSyncEvent(newcomer, At(7), 1, SchedulerStateEvent(ResetPeer())).after.scheduler)
  {
    ResetPeerSends();
    SchedulesAreValid();
    var newcomer := New(Double(), Some(2));
    var short, long := Named("a", 1, false), Named("b", 4, true);
    B.FreshIsNotOverdue(Double());
    SnapshotJoins(newcomer, At(7), 1, ResetPosition(), ActiveBreak("a", "Rest", 5, Scheduled(5), false), short);
    StaysBehind(newcomer.scheduler, short, long);
  }

  lemma StaysBehind(s: S.Scheduler, short: Rule, long: Rule)
    requires ValidSchedule(Double()) && s == S.New(Double())
    requires short == Named("a", 1, false) && long == Named("b", 4, true)
    ensures !B.NotOverdue(S.MergeSyncedPosition(
      B.Adopted(S.StartActiveSyncedBreak(s, "a", Scheduled(5), 0), ResetPosition()), ResetPosition()))
  {
    SchedulesAreValid();
    assert short in s.Rules() && long in s.Rules();
    var joined := B.Adopted(S.StartActiveSyncedBreak(s, "a", Scheduled(5), 0), ResetPosition());
    B.JoinedAt(s, short, 5, ResetPosition(), long);
    assert LastOf(joined.last, long) == 0 && joined.slot == 5;
    B.MergedLastAt(s.Rules(), joined.last, ResetPosition().last, 5, long);
    assert !B.WithinInterval(S.MergeSyncedPosition(joined, ResetPosition()).last, long, 5);
  }
}
