/** What a newcomer makes of the state it is sent: it is where the sender is, and shows what it shows. */
module Snapshots {
  import opened Base
  import opened Schedules
  import opened Protocol
  import opened RuntimeModel
  import opened RuntimeRuns
  import opened Propagation
  import B = BoundedGap
  import S = SchedulerModel
  import O = Outputs
  import V = SenderValidity

  /** What a machine sends to a peer that has just arrived, as it arrives there. */
  predicate Greets(a: Runtime, env: Env, peer: PeerId, e: SyncEvent)
    requires a.Valid()
  {
    var sent := TakeTurn(a, Turn(env, Sync(PeerAuthenticated(peer)))).after.sent;
    |sent| == 1 && sent[0].Directed? && sent[0].peer == peer && ArrivesAs(sent[0].event, e)
  }

  /** It says where the sender is, but for a fraction of a millisecond, and what it shows. */
  predicate Tells(a: Runtime, e: SyncEvent) {
    && e.SchedulerState? && e.slot == a.scheduler.slot && e.last == a.scheduler.last
    && Rounded(a.scheduler.activeElapsed, e.activeElapsed)
    && e.activeBreak == if a.current.None? then None
                        else Some(ActiveBreak(a.current.value.name, a.current.value.message,
                                              a.current.value.startedAtMs, a.current.value.origin,
                                              a.current.value.lockAfter))
  }

  lemma GreetingTells(a: Runtime, env: Env, peer: PeerId, e: SyncEvent)
    requires a.Valid() && Joint(a) && Greets(a, env, peer, e)
    ensures Tells(a, e)
  {
    O.SyncSendsExactly(a, env, PeerAuthenticated(peer));
  }

  // ----- positions -----

  /** Each part of a position only ever moves up to the one that is heard of. */
  predicate MergedWith(s: S.Scheduler, slot: nat, elapsed: nat, last: map<string, nat>, after: S.Scheduler) {
    && after.slot == (if slot > s.slot then slot else s.slot)
    && after.activeElapsed == (if slot > s.slot || (slot == s.slot && elapsed > s.activeElapsed) then elapsed
                               else s.activeElapsed)
    && (forall r | r in s.Rules() :: LastOf(after.last, r) == Max(LastOf(s.last, r), Min(LastOf(last, r), after.slot)))
    && after.last.Keys == s.last.Keys && after.state == s.state && after.schedule == s.schedule
  }

  lemma MergeMerges(s: S.Scheduler, p: Position)
    requires s.Valid()
    ensures MergedWith(s, p.slot, p.activeElapsed, p.last, S.MergeSyncedPosition(s, p))
  {
    var after := S.MergeSyncedPosition(s, p);
    forall r | r in s.Rules() ensures LastOf(after.last, r) == Max(LastOf(s.last, r), Min(LastOf(p.last, r), after.slot)) {
      B.MergedLastAt(s.Rules(), s.last, p.last, after.slot, r);
    }
  }

  /** A snapshot without a break moves the position up and changes nothing else. */
  lemma SnapshotMerges(r: Runtime, env: Env, peer: PeerId, e: SyncEvent)
    requires r.Valid() && e.SchedulerState? && e.activeBreak.None?
    ensures var step := Told(r, env, peer, e);
      && step.running && MergedWith(r.scheduler, e.slot, e.activeElapsed, e.last, step.after.scheduler)
      && step.after == Drained(r).(scheduler := step.after.scheduler)
  {
    MergeMerges(r.scheduler, Position(e.slot, e.activeElapsed, e.last));
  }

  /** Nor does a start that loses against the break shown, whose position counts all the same. */
  lemma LosingStartMerges(r: Runtime, env: Env, peer: PeerId, e: SyncEvent)
    requires r.Valid() && e.BreakStarted? && e.origin != Scheduled(0) && FindRule(r.scheduler.Rules(), e.name).Some?
    requires r.current.Some?
    requires !SyncedBreakReplacesCurrent(r.current.value, r.localPeer, peer, e.origin, e.startedAtMs)
    ensures var step := Told(r, env, peer, e);
      && step.running
      && MergedWith(r.scheduler, e.position.slot, e.position.activeElapsed, e.position.last, step.after.scheduler)
      && step.after == Drained(r).(scheduler := step.after.scheduler)
  {
    MergeMerges(r.scheduler, e.position);
  }

  /** A start of a break that is not configured here, or of slot zero, is not heard at all. */
  lemma UnknownStartIsIgnored(r: Runtime, env: Env, peer: PeerId, e: SyncEvent)
    requires r.Valid() && e.BreakStarted?
    requires e.origin == Scheduled(0) || e.name !in RuleNames(r.scheduler.Rules())
    ensures Told(r, env, peer, e) == Step(Drained(r), true)
  {
  }

  // ----- breaks -----

  /** The break a snapshot tells of can be shown: it is configured here and not yet over. */
  predicate Showable(r: Runtime, env: Env, c: CurrentBreak, rule: Rule) {
    && env.backendUp && c.origin != Scheduled(0) && FindRule(r.scheduler.Rules(), c.name) == Some(rule)
    && (c.origin.Scheduled? ==> r.scheduler.slot <= c.origin.slot)
    && Remaining(env.laterNow, c.startedAtMs, rule.duration) > 0
  }

  /** The break a start with a lock decision tells of. */
  function Announced(start: SyncedStart): CurrentBreak
    requires start.lockAfter.Some?
  {
    CurrentBreak(start.name, start.message, start.origin, start.lockAfter.value, start.startedAtMs)
  }

  /** Any ready machine that is not past it shows the very break it is told of, with its lock. */
  lemma SnapshotIsJoined(r: Runtime, env: Env, peer: PeerId, a: Runtime, e: SyncEvent, rule: Rule)
    requires r.Valid() && r.current.None? && r.scheduler.state.Ready? && Tells(a, e) && a.current.Some?
    requires Showable(r, env, a.current.value, rule)
    ensures Told(r, env, peer, e).running && Told(r, env, peer, e).after.current == a.current
  {
    SnapshotStarts(Drained(r), env, peer, e, a.current.value, rule);
  }

  lemma SnapshotStarts(r: Runtime, env: Env, peer: PeerId, e: SyncEvent, c: CurrentBreak, rule: Rule)
    requires r.Valid() && r.current.None? && r.scheduler.state.Ready? && Showable(r, env, c, rule)
    requires e.SchedulerState?
    requires e.activeBreak == Some(ActiveBreak(c.name, c.message, c.startedAtMs, c.origin, c.lockAfter))
    ensures var p := Position(e.slot, e.activeElapsed, e.last);
      var step := HandleSyncEvent(r, env, peer, e);
      && step.running && step.after.current == Some(c)
      && step.after.scheduler == S.MergeSyncedPosition(S.MergeSyncedPosition(
           S.StartActiveSyncedBreak(r.scheduler, c.name, c.origin, env.pick).after, p), p)
  {
    var p := Position(e.slot, e.activeElapsed, e.last);
    var start := SyncedStart(c.name, c.message, c.startedAtMs, c.origin, p, Some(c.lockAfter));
    assert ApplySyncedBreakStart(r, env, peer, start) == StartSyncedBreak(r, env, start);
    JoinShows(r, env, start, rule);
  }

  lemma JoinStarts(s: S.Scheduler, name: string, origin: Origin, pick: nat, rule: Rule)
    requires s.Valid() && s.state.Ready? && origin != Scheduled(0) && FindRule(s.Rules(), name) == Some(rule)
    requires origin.Scheduled? ==> s.slot <= origin.slot
    ensures var started := S.StartActiveSyncedBreak(s, name, origin, pick).started;
      && started.Some? && started.value.name == name && started.value.origin == origin
      && started.value.duration == rule.duration
  {
  }

  lemma JoinShows(r: Runtime, env: Env, start: SyncedStart, rule: Rule)
    requires r.Valid() && r.current.None? && r.scheduler.state.Ready? && start.lockAfter.Some?
    requires Showable(r, env, Announced(start), rule)
    ensures var step := StartSyncedBreak(r, env, start);
      && step.running
      && step.after.current == Some(Announced(start))
      && step.after.scheduler == S.MergeSyncedPosition(
           S.StartActiveSyncedBreak(r.scheduler, start.name, start.origin, env.pick).after, start.position)
  {
    JoinStarts(r.scheduler, start.name, start.origin, env.pick, rule);
    var o := S.StartActiveSyncedBreak(r.scheduler, start.name, start.origin, env.pick);
    StartShows(r.(scheduler := S.MergeSyncedPosition(o.after, start.position)), env,
               o.started.value.(message := start.message, autolock := start.lockAfter.value), start.startedAtMs);
  }

  lemma StartShows(r: Runtime, env: Env, b: ScheduledBreak, at: nat)
    requires env.backendUp && Remaining(env.laterNow, at, b.duration) > 0
    ensures var step := StartBreakAt(r, env, b, at, Suppress);
      && step.running && step.after.scheduler == r.scheduler
      && step.after.current == Some(CurrentBreak(b.name, b.message, b.origin, b.autolock, at))
  {
  }

  /** And one that shows another break, which loses, puts it in its place. */
  lemma SnapshotReplaces(r: Runtime, env: Env, peer: PeerId, a: Runtime, e: SyncEvent, rule: Rule)
    requires r.Valid() && r.current.Some? && Tells(a, e) && a.current.Some?
    requires SyncedBreakReplacesCurrent(r.current.value, r.localPeer, peer, a.current.value.origin,
                                        a.current.value.startedAtMs)
    requires Showable(r, env, a.current.value, rule)
    ensures Told(r, env, peer, e).running && Told(r, env, peer, e).after.current == a.current
  {
    var c := a.current.value;
    var p := Position(e.slot, e.activeElapsed, e.last);
    var start := SyncedStart(c.name, c.message, c.startedAtMs, c.origin, p, Some(c.lockAfter));
    ReplacingShows(Drained(r), env, peer, start, rule);
  }

  lemma ReplacingShows(r: Runtime, env: Env, peer: PeerId, start: SyncedStart, rule: Rule)
    requires r.Valid() && r.current.Some? && start.lockAfter.Some?
    requires SyncedBreakReplacesCurrent(r.current.value, r.localPeer, peer, start.origin, start.startedAtMs)
    requires Showable(r, env, Announced(start), rule)
    ensures var step := ApplySyncedBreakStart(r, env, peer, start);
      step.running && step.after.current == Some(Announced(start))
  {
  }

  /** Whatever break comes with it, and even if that is refused, the position of a snapshot counts. */
  lemma SnapshotAlwaysCounts(r: Runtime, env: Env, peer: PeerId, e: SyncEvent, rule: Rule)
    requires r.Valid() && e.SchedulerState? && Told(r, env, peer, e).running && rule in r.scheduler.Rules()
    ensures var after := Told(r, env, peer, e).after.scheduler;
      e.slot <= after.slot && Min(LastOf(e.last, rule), after.slot) <= LastOf(after.last, rule)
  {
    var p := Position(e.slot, e.activeElapsed, e.last);
    var b := e.activeBreak;
    var joined := if b.None? then Step(Drained(r), true)
                  else ApplySyncedBreakStart(Drained(r), env, peer, SyncedStart(b.value.name, b.value.message,
                    b.value.startedAtMs, b.value.origin, p, Some(b.value.lockAfter)));
    MergeMerges(joined.after.scheduler, p);
  }

  // ----- where a break leaves those that take it over -----

  /** The slot a rule was satisfied at, after a break of that origin and interval. */
  function SatisfiedBy(s: S.Scheduler, origin: Origin, interval: nat, r: Rule): nat {
    match origin
    case Manual => if r.interval <= interval then s.slot else LastOf(s.last, r)
    case Scheduled(slot) =>
      if r.interval <= interval && LastOf(s.last, r) + r.interval <= slot then slot else LastOf(s.last, r)
  }

  /** The break counts for its rule and the more frequent ones that are due; then the position is merged. */
  predicate TakenOver(s: S.Scheduler, origin: Origin, p: Position, rule: Rule, elapsed: nat, after: S.Scheduler) {
    var slot := if origin.Scheduled? then origin.slot else s.slot;
    && after.slot == Max(slot, p.slot)
    && after.activeElapsed == (if p.slot > slot || (p.slot == slot && p.activeElapsed > elapsed) then p.activeElapsed
                               else elapsed)
    && forall r | r in s.Rules() ::
         LastOf(after.last, r) == Max(SatisfiedBy(s, origin, rule.interval, r), Min(LastOf(p.last, r), after.slot))
  }

  lemma AdoptionSatisfies(s: S.Scheduler, name: string, origin: Origin, rule: Rule, r: Rule)
    requires s.Valid() && r in s.Rules() && FindRule(s.Rules(), name) == Some(rule)
    requires S.AdoptSyncedOrigin(s, name, origin).Some?
    ensures LastOf(S.AdoptSyncedOrigin(s, name, origin).value.last, r) == SatisfiedBy(s, origin, rule.interval, r)
  {
    RuleFacts(s.Rules(), r);
    match origin
    case Manual => SatisfyManualAt(s.Rules(), s.last, s.slot, rule.interval, r);
    case Scheduled(slot) => SatisfyScheduledAt(s.Rules(), s.last, slot, rule, r);
  }

  lemma AdoptedTakesOver(s: S.Scheduler, name: string, origin: Origin, p: Position, rule: Rule, adopted: S.Scheduler)
    requires s.Valid() && FindRule(s.Rules(), name) == Some(rule) && S.AdoptSyncedOrigin(s, name, origin).Some?
    requires var o := S.AdoptSyncedOrigin(s, name, origin).value;
      adopted.schedule == o.schedule && adopted.slot == o.slot && adopted.last == o.last
    ensures TakenOver(s, origin, p, rule, adopted.activeElapsed, S.MergeSyncedPosition(adopted, p))
  {
    MergeMerges(adopted, p);
    forall r | r in s.Rules()
      ensures LastOf(adopted.last, r) == SatisfiedBy(s, origin, rule.interval, r)
    {
      AdoptionSatisfies(s, name, origin, rule, r);
    }
  }

  /** The start can be taken over: configured, not yet over, and its slot not passed. */
  predicate Takeable(r: Runtime, env: Env, start: SyncedStart, rule: Rule) {
    && FindRule(r.scheduler.Rules(), start.name) == Some(rule) && start.origin != Scheduled(0)
    && (start.origin.Scheduled? ==> r.scheduler.slot <= start.origin.slot)
    && env.backendUp && Remaining(env.laterNow, start.startedAtMs, rule.duration) > 0
  }

  lemma JoinTakesOver(r: Runtime, env: Env, peer: PeerId, start: SyncedStart, rule: Rule)
    requires r.Valid() && Takeable(r, env, start, rule) && r.current.None? && r.scheduler.state.Ready?
    ensures TakenOver(r.scheduler, start.origin, start.position, rule, 0,
                      ApplySyncedBreakStart(r, env, peer, start).after.scheduler)
  {
    var o := S.StartActiveSyncedBreak(r.scheduler, start.name, start.origin, env.pick);
    AdoptedTakesOver(r.scheduler, start.name, start.origin, start.position, rule, o.after);
    JoinLeaves(r, env, start, rule);
    assert ApplySyncedBreakStart(r, env, peer, start) == StartSyncedBreak(r, env, start);
  }

  lemma ReplacementTakesOver(r: Runtime, env: Env, peer: PeerId, start: SyncedStart, rule: Rule)
    requires r.Valid() && Takeable(r, env, start, rule) && r.current.Some?
    requires SyncedBreakReplacesCurrent(r.current.value, r.localPeer, peer, start.origin, start.startedAtMs)
    ensures TakenOver(r.scheduler, start.origin, start.position, rule,
                      if start.origin.Manual? then r.scheduler.activeElapsed else 0,
                      ApplySyncedBreakStart(r, env, peer, start).after.scheduler)
  {
    var o := S.ReplacementSyncedBreak(r.scheduler, start.name, start.origin, env.pick);
    AdoptedTakesOver(r.scheduler, start.name, start.origin, start.position, rule, o.after);
    ReplacementLeaves(r, env, peer, start, rule);
  }

  /**
   * A start that is joined or replaces the break shown leaves the scheduler exactly there. Its time in
   * progress is gone, unless one manual break takes the place of another.
   */
  lemma WinningStartTakesOver(r: Runtime, env: Env, peer: PeerId, start: SyncedStart, rule: Rule)
    requires r.Valid() && Takeable(r, env, start, rule)
    requires if r.current.None? then r.scheduler.state.Ready?
             else SyncedBreakReplacesCurrent(r.current.value, r.localPeer, peer, start.origin, start.startedAtMs)
    ensures var elapsed := if r.current.Some? && start.origin.Manual? then r.scheduler.activeElapsed else 0;
      TakenOver(r.scheduler, start.origin, start.position, rule, elapsed,
                ApplySyncedBreakStart(r, env, peer, start).after.scheduler)
  {
    if r.current.None? {
      JoinTakesOver(r, env, peer, start, rule);
    } else {
      ReplacementTakesOver(r, env, peer, start, rule);
    }
  }

  lemma JoinLeaves(r: Runtime, env: Env, start: SyncedStart, rule: Rule)
    requires r.Valid() && r.scheduler.state.Ready? && start.origin != Scheduled(0) && env.backendUp
    requires FindRule(r.scheduler.Rules(), start.name) == Some(rule)
    requires start.origin.Scheduled? ==> r.scheduler.slot <= start.origin.slot
    requires Remaining(env.laterNow, start.startedAtMs, rule.duration) > 0
    ensures StartSyncedBreak(r, env, start).after.scheduler == S.MergeSyncedPosition(
      S.StartActiveSyncedBreak(r.scheduler, start.name, start.origin, env.pick).after, start.position)
  {
    JoinStarts(r.scheduler, start.name, start.origin, env.pick, rule);
  }

  lemma ReplacementLeaves(r: Runtime, env: Env, peer: PeerId, start: SyncedStart, rule: Rule)
    requires r.Valid() && r.current.Some? && start.origin != Scheduled(0) && env.backendUp
    requires FindRule(r.scheduler.Rules(), start.name) == Some(rule)
    requires start.origin.Scheduled? ==> r.scheduler.slot <= start.origin.slot
    requires SyncedBreakReplacesCurrent(r.current.value, r.localPeer, peer, start.origin, start.startedAtMs)
    requires Remaining(env.laterNow, start.startedAtMs, rule.duration) > 0
    ensures ApplySyncedBreakStart(r, env, peer, start).after.scheduler == S.MergeSyncedPosition(
      S.ReplacementSyncedBreak(r.scheduler, start.name, start.origin, env.pick).after, start.position)
  {
  }

  // ----- newcomers -----

  /** A newcomer to a machine that shows nothing: it is where that machine is. */
  lemma NewcomerCatchesUp(
    a: Runtime, env: Env, schedule: Schedule, me: PeerId, envN: Env, peer: PeerId, e: SyncEvent)
    requires a.Valid() && Joint(a) && V.Bounded(a.scheduler) && a.scheduler.schedule == schedule
    requires a.current.None? && Greets(a, env, me, e)
    ensures var n := Told(New(schedule, Some(me)), envN, peer, e).after;
      && n.scheduler.slot == a.scheduler.slot && n.scheduler.last == a.scheduler.last
      && Rounded(a.scheduler.activeElapsed, n.scheduler.activeElapsed)
      && n.current.None? && n.scheduler.state == S.Ready(S.Active)
  {
    GreetingTells(a, env, me, e);
    SnapshotMerges(New(schedule, Some(me)), envN, peer, e);
    var n := Told(New(schedule, Some(me)), envN, peer, e).after;
    forall r | r in schedule.rules ensures LastOf(n.scheduler.last, r) == LastOf(a.scheduler.last, r) {
      RuleFacts(schedule.rules, r);
      assert LastOf(S.New(schedule).last, r) == 0 && LastOf(a.scheduler.last, r) <= a.scheduler.slot;
    }
    SameLast(schedule.rules, n.scheduler.last, a.scheduler.last);
  }

  /** What a newcomer counts as satisfied by the break it joins: nothing else has been so far. */
  function SatisfiedByJoining(c: CurrentBreak, joined: Rule, r: Rule): nat {
    if c.origin.Scheduled? && r.interval <= joined.interval && r.interval <= c.origin.slot then c.origin.slot else 0
  }

  /** Where it is after that: where the machine or the break is, rule by rule. */
  predicate CaughtUp(s: S.Scheduler, c: CurrentBreak, rule: Rule, n: S.Scheduler) {
    && n.slot == Max(s.slot, if c.origin.Scheduled? then c.origin.slot else 0)
    && (n.slot == s.slot ==> Rounded(s.activeElapsed, n.activeElapsed))
    && forall r | r in s.Rules() :: LastOf(n.last, r) == Max(LastOf(s.last, r), SatisfiedByJoining(c, rule, r))
  }

  lemma JoinedFresh(schedule: Schedule, c: CurrentBreak, rule: Rule, pick: nat)
    requires ValidSchedule(schedule) && c.origin != Scheduled(0) && FindRule(schedule.rules, c.name) == Some(rule)
    ensures var joined := S.StartActiveSyncedBreak(S.New(schedule), c.name, c.origin, pick).after;
      && joined.Valid() && joined.schedule == schedule && joined.activeElapsed == 0
      && joined.slot == (if c.origin.Scheduled? then c.origin.slot else 0)
      && forall r | r in schedule.rules :: LastOf(joined.last, r) == SatisfiedByJoining(c, rule, r)
  {
    var s := S.New(schedule);
    var joined := S.StartActiveSyncedBreak(s, c.name, c.origin, pick).after;
    forall r | r in schedule.rules ensures LastOf(joined.last, r) == SatisfiedByJoining(c, rule, r) {
      RuleFacts(schedule.rules, r);
      if c.origin.Scheduled? {
        SatisfyScheduledAt(schedule.rules, s.last, c.origin.slot, rule, r);
      } else {
        SatisfyManualAt(schedule.rules, s.last, 0, rule.interval, r);
      }
    }
  }

  /**
   * A newcomer to a machine that shows a break not yet over shows the same one and is where the break or
   * the machine is, whichever is further; a rule counts as satisfied where the machine or the break says so.
   */
  lemma NewcomerJoins(
    a: Runtime, env: Env, schedule: Schedule, me: PeerId, envN: Env, peer: PeerId, e: SyncEvent, rule: Rule)
    requires a.Valid() && Joint(a) && V.Bounded(a.scheduler) && a.scheduler.schedule == schedule
    requires a.current.Some? && Greets(a, env, me, e)
    requires Showable(New(schedule, Some(me)), envN, a.current.value, rule)
    ensures var n := Told(New(schedule, Some(me)), envN, peer, e).after;
      n.current == a.current && CaughtUp(a.scheduler, a.current.value, rule, n.scheduler)
  {
    GreetingTells(a, env, me, e);
    NewcomerHears(a, schedule, me, envN, peer, e, rule);
  }

  lemma NewcomerHears(a: Runtime, schedule: Schedule, me: PeerId, env: Env, peer: PeerId, e: SyncEvent, rule: Rule)
    requires ValidSchedule(schedule) && V.Bounded(a.scheduler) && a.scheduler.schedule == schedule
    requires a.current.Some? && Tells(a, e) && Showable(New(schedule, Some(me)), env, a.current.value, rule)
    ensures var n := Told(New(schedule, Some(me)), env, peer, e).after;
      n.current == a.current && CaughtUp(a.scheduler, a.current.value, rule, n.scheduler)
  {
    var newcomer := New(schedule, Some(me));
    var c := a.current.value;
    SnapshotStarts(Drained(newcomer), env, peer, e, c, rule);
    FreshCatchesUp(a.scheduler, c, rule, env.pick, Position(e.slot, e.activeElapsed, e.last));
  }

  lemma FreshCatchesUp(s: S.Scheduler, c: CurrentBreak, rule: Rule, pick: nat, p: Position)
    requires V.Bounded(s) && c.origin != Scheduled(0) && FindRule(s.Rules(), c.name) == Some(rule)
    requires p.slot == s.slot && p.last == s.last && Rounded(s.activeElapsed, p.activeElapsed)
    ensures var joined := S.StartActiveSyncedBreak(S.New(s.schedule), c.name, c.origin, pick).after;
      CaughtUp(s, c, rule, S.MergeSyncedPosition(S.MergeSyncedPosition(joined, p), p))
  {
    JoinedFresh(s.schedule, c, rule, pick);
    var joined := S.StartActiveSyncedBreak(S.New(s.schedule), c.name, c.origin, pick).after;
    MergedTwice(joined, p);
    JoinedCatchesUp(s, c, rule, joined, p.activeElapsed, S.MergeSyncedPosition(S.MergeSyncedPosition(joined, p), p));
  }

  lemma JoinedCatchesUp(s: S.Scheduler, c: CurrentBreak, rule: Rule, joined: S.Scheduler, elapsed: nat, n: S.Scheduler)
    requires V.Bounded(s) && joined.schedule == s.schedule && joined.activeElapsed == 0
    requires joined.slot == if c.origin.Scheduled? then c.origin.slot else 0
    requires forall r | r in s.Rules() :: LastOf(joined.last, r) == SatisfiedByJoining(c, rule, r)
    requires Rounded(s.activeElapsed, elapsed) && MergedWith(joined, s.slot, elapsed, s.last, n)
    ensures CaughtUp(s, c, rule, n)
  {
    forall r | r in s.Rules() ensures LastOf(n.last, r) == Max(LastOf(s.last, r), SatisfiedByJoining(c, rule, r)) {
      RuleFacts(s.Rules(), r);
      assert LastOf(s.last, r) <= s.slot;
    }
  }

  lemma MergedTwice(s: S.Scheduler, p: Position)
    requires s.Valid()
    ensures MergedWith(s, p.slot, p.activeElapsed, p.last, S.MergeSyncedPosition(S.MergeSyncedPosition(s, p), p))
  {
    MergeMerges(s, p);
    MergeMerges(S.MergeSyncedPosition(s, p), p);
  }

  /** What these ask of the machine holds after every run from start-up. */
  lemma RunCanGreet(schedule: Schedule, localPeer: Option<PeerId>, turns: seq<Turn>)
    requires ValidSchedule(schedule)
    ensures var a := Run(New(schedule, localPeer), turns).after;
      a.Valid() && Joint(a) && V.Bounded(a.scheduler) && a.scheduler.schedule == schedule
  {
    RunKeepsJoint(New(schedule, localPeer), turns);
    V.RunDescribable(New(schedule, localPeer), turns);
  }
}
