/** Over whole runs no break is announced more than twice between two withdrawals of the notice. */
module NoticeRuns {
  import opened Base
  import opened Schedules
  import opened RuntimeModel
  import opened RuntimeRuns
  import opened Notices
  import P = Protocol
  import S = SchedulerModel
  import R = RuntimeRuns
  import V = SenderValidity

  // ----- the predicted break only moves forward -----

  /** Slot and satisfied slots have not gone back. */
  predicate Grows(s: S.Scheduler, t: S.Scheduler) {
    && t.schedule == s.schedule && s.slot <= t.slot
    && forall r | r in s.Rules() :: LastOf(s.last, r) <= LastOf(t.last, r)
  }

  /** Later slot first, then the shorter interval: a longer rule due at a slot comes before a shorter one. */
  predicate AtOrAfter(slot: nat, interval: nat, laterSlot: nat, laterInterval: nat) {
    slot < laterSlot || (slot == laterSlot && laterInterval <= interval)
  }

  lemma GrowsTwice(a: S.Scheduler, b: S.Scheduler, c: S.Scheduler)
    requires Grows(a, b) && Grows(b, c)
    ensures Grows(a, c)
  {
    forall r | r in a.Rules() ensures LastOf(a.last, r) <= LastOf(c.last, r) {
      assert LastOf(a.last, r) <= LastOf(b.last, r);
    }
  }

  lemma PredictionMovesForward(s: S.Scheduler, t: S.Scheduler)
    requires s.Valid() && t.Valid() && Grows(s, t)
    ensures AtOrAfter(S.NextSlot(s), S.NextRule(s).interval, S.NextSlot(t), S.NextRule(t).interval)
  {
    var first := NextDueAttained(t.Rules(), t.last, t.slot);
    NextDueAtMost(s.Rules(), s.last, s.slot, first);
    assert LastOf(s.last, first) <= LastOf(t.last, first);
    if S.NextSlot(s) == S.NextSlot(t) {
      var r := S.NextRule(t);
      assert LastOf(s.last, r) <= LastOf(t.last, r);
      DueFromNextDue(t.Rules(), t.last, t.slot, S.NextSlot(t));
      DueRuleIsLongest(s.Rules(), s.last, S.NextSlot(s), r);
    }
  }

  lemma {:induction false} IntervalsDiffer(rules: seq<Rule>, a: Rule, b: Rule)
    requires WellOrdered(rules) && a in rules && b in rules && a.interval == b.interval
    ensures a == b
  {
    if a != rules[0] && b != rules[0] {
      assert a in rules[1..] && b in rules[1..];
      IntervalsDiffer(rules[1..], a, b);
    } else if a != b {
      var other := if a == rules[0] then b else a;
      assert other in rules[1..];
      RuleFacts(rules[1..], other);
    }
  }

  lemma MergeGrows(s: S.Scheduler, p: Position)
    requires s.Valid()
    ensures Grows(s, S.MergeSyncedPosition(s, p))
  {
    AllRuleFacts(s.Rules());
  }

  lemma ManualGrows(s: S.Scheduler, name: string, pick: nat)
    requires V.Bounded(s)
    ensures Grows(s, S.StartManualBreak(s, name, pick).after)
  {
    AllRuleFacts(s.Rules());
  }

  lemma AdoptionGrows(s: S.Scheduler, name: string, origin: Origin, pick: nat)
    requires V.Bounded(s)
    ensures Grows(s, S.StartActiveSyncedBreak(s, name, origin, pick).after)
    ensures Grows(s, S.ReplacementSyncedBreak(s, name, origin, pick).after)
  {
    AllRuleFacts(s.Rules());
  }

  // ----- what one input does to the notice -----

  predicate Withdraws(ui: seq<UiCommand>) { ClearPreBreakNotification in ui }

  predicate Announces(ui: seq<UiCommand>) { exists i | 0 <= i < |ui| :: ui[i].ShowPreBreakNotification? }

  predicate Gone(r: Runtime, after: Runtime) {
    after.notice.None? && (r.notice.Some? ==> Withdraws(after.ui)) && !Announces(after.ui)
  }

  predicate Stays(r: Runtime, after: Runtime) {
    && after.notice == r.notice && !Withdraws(after.ui) && !Announces(after.ui)
    && Grows(r.scheduler, after.scheduler)
  }

  /** A new notice is for the break now predicted and uses up one of its warnings. */
  predicate Renewed(r: Runtime, after: Runtime) {
    && after.scheduler.Valid() && Grows(r.scheduler, after.scheduler)
    && !Withdraws(after.ui) && after.notice.Some?
    && var rule, slot := S.NextRule(after.scheduler), S.NextSlot(after.scheduler);
    && after.notice.value.name == rule.name && after.notice.value.slot == slot
    && WarningsLeft(after.notice, rule.name, slot) < WarningsLeft(r.notice, rule.name, slot)
  }

  /** Nothing is announced. */
  predicate Unannounced(r: Runtime, after: Runtime) { Gone(r, after) || Stays(r, after) }

  predicate Effect(r: Runtime, after: Runtime) { Unannounced(r, after) || Renewed(r, after) }

  predicate Ready(r: Runtime) { r.Valid() && V.Bounded(r.scheduler) && r.ui == [] }

  lemma NotifyEffect(r: Runtime, mid: Runtime)
    requires Ready(r) && mid.Valid() && mid.ui == [] && mid.notice == r.notice && Grows(r.scheduler, mid.scheduler)
    ensures Effect(r, NotifyUpcomingBreak(mid))
  {
    NoticeUsesUpWarning(mid);
  }

  lemma StartAtEffect(r: Runtime, begun: Runtime, env: Env, b: ScheduledBreak, at: nat, propagation: Propagation)
    requires Ready(r) && begun.ui == [] && begun.notice == r.notice && Grows(r.scheduler, begun.scheduler)
    ensures Unannounced(r, StartBreakAt(begun, env, b, at, propagation).after)
  {
  }

  lemma StartedAtEffect(r: Runtime, begun: Runtime, env: Env, b: ScheduledBreak, at: nat, propagation: Propagation)
    requires begun.notice == r.notice && begun.ui == []
    ensures Gone(r, StartBreakAt(ClearNotice(begun), env, b, at, propagation).after)
  {
  }

  lemma AdvanceActiveEffect(r: Runtime, env: Env, elapsed: nat, propagation: Propagation)
    requires Ready(r)
    ensures Effect(r, AdvanceActive(r, env, elapsed, propagation).after)
  {
    var o := S.AdvanceActive(r.scheduler, elapsed, env.pick);
    var advanced := r.(scheduler := o.after);
    if o.started.Some? {
      StartedAtEffect(r, advanced, env, o.started.value, env.startNow, propagation);
    } else {
      NotifyEffect(r, advanced);
    }
  }

  /** Only scheduler, notice and messages to the user matter. */
  lemma EffectFrom(r: Runtime, same: Runtime, after: Runtime)
    requires same.scheduler == r.scheduler && same.notice == r.notice && Effect(same, after)
    ensures Effect(r, after)
  {
  }

  lemma ObserveActiveEffect(r: Runtime, env: Env, elapsed: nat, a: Propagation, b: Propagation)
    requires Ready(r)
    ensures Effect(r, ObserveActive(r, env, elapsed, a, b).after)
  {
    var tracked := BroadcastIfNeeded(ResetIdleTracking(r), a, P.ActiveTimeElapsed(elapsed));
    var spent := tracked.(activity := Spend(r.activity, elapsed));
    AdvanceActiveEffect(spent, env, Credited(r.activity, elapsed), b);
    EffectFrom(r, spent, AdvanceActive(spent, env, Credited(r.activity, elapsed), b).after);
  }

  lemma ManualEffect(r: Runtime, env: Env, name: string)
    requires Ready(r)
    ensures Effect(r, StartManualBreak(r, env, name, Forward).after)
  {
    var o := S.StartManualBreak(r.scheduler, name, env.pick);
    ManualGrows(r.scheduler, name, env.pick);
    if o.started.Some? {
      StartAtEffect(r, r.(scheduler := o.after), env, o.started.value, env.startNow, Forward);
    }
  }

  lemma JoinEffect(r: Runtime, env: Env, start: SyncedStart)
    requires Ready(r)
    ensures Unannounced(r, StartSyncedBreak(r, env, start).after)
  {
    var o := S.StartActiveSyncedBreak(r.scheduler, start.name, start.origin, env.pick);
    AdoptionGrows(r.scheduler, start.name, start.origin, env.pick);
    if o.started.Some? {
      MergeGrows(o.after, start.position);
      var merged := S.MergeSyncedPosition(o.after, start.position);
      GrowsTwice(r.scheduler, o.after, merged);
      var lock := if start.lockAfter.Some? then start.lockAfter.value else o.started.value.autolock;
      StartAtEffect(r, r.(scheduler := merged), env,
                    o.started.value.(message := start.message, autolock := lock), start.startedAtMs, Suppress);
    }
  }

  lemma ReplaceCurrentEffect(r: Runtime, begun: Runtime, env: Env, b: ScheduledBreak, at: nat)
    requires Ready(r) && begun.ui == [] && begun.notice == r.notice && Grows(r.scheduler, begun.scheduler)
    ensures Stays(r, ReplaceCurrentBreak(begun, env, b, at).after)
  {
  }

  lemma ReplacementEffect(r: Runtime, env: Env, start: SyncedStart)
    requires Ready(r) && r.current.Some?
    ensures var o := S.ReplacementSyncedBreak(r.scheduler, start.name, start.origin, env.pick);
      o.started.Some? ==> Stays(r, ReplaceCurrentBreak(
        r.(scheduler := S.MergeSyncedPosition(o.after, start.position)), env,
        o.started.value.(message := start.message,
                         autolock := ReplacedLock(start, r.current.value, o.started.value.autolock)),
        start.startedAtMs).after)
  {
    var o := S.ReplacementSyncedBreak(r.scheduler, start.name, start.origin, env.pick);
    if o.started.Some? {
      AdoptionGrows(r.scheduler, start.name, start.origin, env.pick);
      MergeGrows(o.after, start.position);
      var merged := S.MergeSyncedPosition(o.after, start.position);
      GrowsTwice(r.scheduler, o.after, merged);
      var lock := ReplacedLock(start, r.current.value, o.started.value.autolock);
      ReplaceCurrentEffect(r, r.(scheduler := merged), env,
                           o.started.value.(message := start.message, autolock := lock), start.startedAtMs);
    }
  }

  /** A peer's break never announces anything. */
  lemma SyncedStartEffect(r: Runtime, env: Env, peer: PeerId, start: SyncedStart)
    requires Ready(r)
    ensures Unannounced(r, ApplySyncedBreakStart(r, env, peer, start).after)
  {
    MergeGrows(r.scheduler, start.position);
    if r.current.None? {
      JoinEffect(r, env, start);
    } else {
      ReplacementEffect(r, env, start);
    }
  }

  lemma SnapshotEffect(r: Runtime, env: Env, peer: PeerId, p: Position, b: Option<P.ActiveBreak>)
    requires Ready(r)
    ensures Effect(r, ApplySyncedSchedulerState(r, env, peer, p, b).after)
  {
    if b.None? {
      MergeGrows(r.scheduler, p);
    } else {
      var start :=
        SyncedStart(b.value.name, b.value.message, b.value.startedAtMs, b.value.origin, p, Some(b.value.lockAfter));
      var joined := ApplySyncedBreakStart(r, env, peer, start).after;
      SyncedStartEffect(r, env, peer, start);
      MergeGrows(joined.scheduler, p);
      if Stays(r, joined) { GrowsTwice(r.scheduler, joined.scheduler, S.MergeSyncedPosition(joined.scheduler, p)); }
    }
  }

  lemma EndEffect(r: Runtime, env: Env, propagation: Propagation)
    requires Ready(r)
    ensures Gone(r, Finish(r, env).after) && Gone(r, FailStart(r)) && Gone(r, ClearNotice(r))
    ensures Gone(r, ApplySchedulerReset(r, propagation))
    ensures Stays(r, RequestLock(r, env, propagation).after) && Stays(r, EnableScheduler(r, propagation))
  {
  }

  lemma DisableEffect(r: Runtime, env: Env, duration: nat, propagation: Propagation)
    requires Ready(r)
    ensures Gone(r, DisableForDuration(r, env, duration, propagation).after)
    ensures Gone(r, DisableUntil(r, env, propagation).after)
  {
  }

  lemma ClockEffect(r: Runtime, env: Env, elapsed: nat)
    requires Ready(r)
    ensures Effect(r, AdvanceIdle(r, elapsed)) && Effect(r, AdvanceWallClock(r, env, elapsed))
  {
  }

  lemma LocalEffect(r: Runtime, env: Env, e: RuntimeEvent)
    requires Ready(r)
    ensures Effect(r, HandleEvent(r, env, e).after)
  {
    match e
    case ActiveElapsed(elapsed) => ObserveActiveEffect(r, env, elapsed, Forward, Forward);
    case IdleElapsed(elapsed) => ClockEffect(r, env, elapsed);
    case WallClockElapsed(elapsed) => ClockEffect(r, env, elapsed);
    case StartManual(name) => ManualEffect(r, env, name);
    case DisableBreaks(For(duration)) => DisableEffect(r, env, duration, Forward);
    case DisableBreaks(UntilRestartRequest) => DisableEffect(r, env, 0, Forward);
    case _ => EndEffect(r, env, Forward);
  }

  lemma SyncEffect(r: Runtime, env: Env, peer: PeerId, e: P.SyncEvent)
    requires Ready(r)
    ensures Effect(r, HandleSyncEvent(r, env, peer, e).after)
  {
    match e
    case ActiveTimeElapsed(elapsed) => ObserveActiveEffect(r, env, elapsed, Suppress, Forward);
    case BreakStarted(name, message, at, origin, p) =>
      SyncedStartEffect(r, env, peer, SyncedStart(name, message, at, origin, p, None));
    case SchedulerState(slot, elapsed, last, b) => SnapshotEffect(r, env, peer, Position(slot, elapsed, last), b);
    case DisableFor(duration) => DisableEffect(r, env, duration, Suppress);
    case DisableUntilRestart => DisableEffect(r, env, 0, Suppress);
    case _ => EndEffect(r, env, Suppress);
  }

  lemma TransportEffect(r: Runtime, env: Env, t: TransportEvent)
    requires Ready(r)
    ensures Effect(r, HandleTransport(r, env, t).after)
  {
    match t
    case Domain(peer, e) => SyncEffect(r, env, peer, e);
    case _ =>
  }

  lemma TurnEffect(r: Runtime, turn: Turn)
    requires r.Valid() && V.Bounded(r.scheduler)
    ensures Effect(r, TakeTurn(r, turn).after)
  {
    match turn.input
    case Local(e) => LocalEffect(Drained(r), turn.env, e);
    case Sync(t) => TransportEffect(Drained(r), turn.env, t);
    EffectFrom(r, Drained(r), TakeTurn(r, turn).after);
  }

  /** What ends a break, breaks altogether, or the count towards them. */
  predicate IsEnding(input: Input) {
    match input
    case Local(BreakFinished) => true
    case Local(BreakStartFailed) => true
    case Local(Shutdown) => true
    case Local(DisableBreaks(_)) => true
    case Sync(Domain(_, DisableFor(_))) => true
    case Sync(Domain(_, DisableUntilRestart)) => true
    case Sync(Domain(_, SchedulerReset)) => true
    case _ => false
  }

  /** A notice does not outlive any of these. */
  lemma EndingWithdraws(r: Runtime, turn: Turn)
    requires r.Valid() && V.Bounded(r.scheduler) && IsEnding(turn.input)
    ensures Gone(r, TakeTurn(r, turn).after)
  {
    var propagation := if turn.input.Local? then Forward else Suppress;
    EndEffect(Drained(r), turn.env, propagation);
    match turn.input
    case Local(DisableBreaks(For(duration))) => DisableEffect(Drained(r), turn.env, duration, Forward);
    case Local(DisableBreaks(UntilRestartRequest)) => DisableEffect(Drained(r), turn.env, 0, Forward);
    case Sync(Domain(_, DisableFor(duration))) => DisableEffect(Drained(r), turn.env, duration, Suppress);
    case Sync(Domain(_, DisableUntilRestart)) => DisableEffect(Drained(r), turn.env, 0, Suppress);
    case _ =>
  }

  // ----- active time -----

  /** The user has been warned of the next break, as far as it is time for that. */
  predicate Warned(r: Runtime)
    requires r.Valid()
  {
    var next := S.UpcomingBreak(r.scheduler);
    next.Some? && next.value.startsAfter <= NoticeLead(r) ==>
      && WarningsLeft(r.notice, next.value.rule.name, next.value.slot) <= 1
      && (next.value.startsAfter <= FINAL_NOTICE_LEAD ==>
            WarningsLeft(r.notice, next.value.rule.name, next.value.slot) == 0)
  }

  lemma NotifyWarns(r: Runtime)
    requires r.Valid()
    ensures Warned(NotifyUpcomingBreak(r))
  {
  }

  lemma ObserveWarns(r: Runtime, env: Env, elapsed: nat, a: Propagation)
    requires r.Valid() && Credited(r.activity, elapsed) > 0
    requires S.AdvanceActive(r.scheduler, Credited(r.activity, elapsed), env.pick).started.None?
    ensures Warned(ObserveActive(r, env, elapsed, a, Forward).after)
  {
    var spent := BroadcastIfNeeded(ResetIdleTracking(r), a, P.ActiveTimeElapsed(elapsed))
                 .(activity := Spend(r.activity, elapsed));
    NotifyWarns(spent.(scheduler := S.AdvanceActive(r.scheduler, Credited(r.activity, elapsed), env.pick).after));
  }

  /** Active time that counts and starts no break, here or at a peer, leaves no warning due. */
  lemma ActiveTimeWarns(r: Runtime, env: Env, peer: PeerId, elapsed: nat)
    requires r.Valid() && Credited(r.activity, elapsed) > 0
    requires S.AdvanceActive(r.scheduler, Credited(r.activity, elapsed), env.pick).started.None?
    ensures Warned(TakeTurn(r, Turn(env, Local(ActiveElapsed(elapsed)))).after)
    ensures Warned(TakeTurn(r, Turn(env, Sync(Domain(peer, P.ActiveTimeElapsed(elapsed))))).after)
  {
    ObserveWarns(Drained(r), env, elapsed, Forward);
    ObserveWarns(Drained(r), env, elapsed, Suppress);
  }

  // ----- warnings left for one break -----

  function IntervalOf(r: Runtime, name: string): nat {
    match FindRule(r.scheduler.Rules(), name)
    case None => 0
    case Some(rule) => rule.interval
  }

  /** The notice is for a break at or before the one now predicted. */
  predicate NoticeBehind(r: Runtime)
    requires r.Valid()
  {
    r.notice.Some? ==>
      && FindRule(r.scheduler.Rules(), r.notice.value.name).Some?
      && AtOrAfter(r.notice.value.slot, IntervalOf(r, r.notice.value.name),
                   S.NextSlot(r.scheduler), S.NextRule(r.scheduler).interval)
  }

  /** Warnings a break can still get before the notice is withdrawn. */
  function StillToCome(r: Runtime, name: string, slot: nat): (left: nat)
    ensures left <= 2
  {
    if r.notice.None? then 2
    else if r.notice.value.name == name && r.notice.value.slot == slot then WarningsLeft(r.notice, name, slot)
    else if AtOrAfter(slot, IntervalOf(r, name), r.notice.value.slot, IntervalOf(r, r.notice.value.name)) then 0
    else 2
  }

  /** The input announces this very break. */
  predicate Warns(r: Runtime, turn: Turn, name: string, slot: nat)
    requires r.Valid()
  {
    var after := TakeTurn(r, turn).after;
    Announces(after.ui) && after.notice.Some? && after.notice.value.name == name && after.notice.value.slot == slot
  }

  lemma NoticeStaysBehind(r: Runtime, after: Runtime)
    requires r.Valid() && after.Valid() && NoticeBehind(r) && Effect(r, after)
    ensures NoticeBehind(after)
  {
    if Stays(r, after) && r.notice.Some? {
      PredictionMovesForward(r.scheduler, after.scheduler);
    } else if Renewed(r, after) {
      RuleFacts(after.scheduler.Rules(), S.NextRule(after.scheduler));
    }
  }

  lemma WarningIsUsedUp(r: Runtime, turn: Turn, name: string, slot: nat)
    requires r.Valid() && V.Bounded(r.scheduler) && NoticeBehind(r)
    requires FindRule(r.scheduler.Rules(), name).Some? && !Withdraws(TakeTurn(r, turn).after.ui)
    ensures StillToCome(TakeTurn(r, turn).after, name, slot) + (if Warns(r, turn, name, slot) then 1 else 0)
         <= StillToCome(r, name, slot)
  {
    var after := TakeTurn(r, turn).after;
    TurnEffect(r, turn);
    if Renewed(r, after) { RenewalUsesUp(r, after, name, slot); }
  }

  lemma RenewalUsesUp(r: Runtime, after: Runtime, name: string, slot: nat)
    requires r.Valid() && NoticeBehind(r) && Renewed(r, after) && FindRule(r.scheduler.Rules(), name).Some?
    ensures StillToCome(after, name, slot)
            + (if after.notice.value.name == name && after.notice.value.slot == slot then 1 else 0)
         <= StillToCome(r, name, slot)
  {
    var rules, next := r.scheduler.Rules(), S.NextRule(after.scheduler);
    RuleFacts(rules, next);
    PredictionMovesForward(r.scheduler, after.scheduler);
    if r.notice.Some? && r.notice.value.slot == S.NextSlot(after.scheduler) {
      var shown := FindRule(rules, r.notice.value.name).value;
      if shown.interval == next.interval { IntervalsDiffer(rules, shown, next); }
    }
  }

  // ----- whole runs -----

  function WarningsOf(r: Runtime, turns: seq<Turn>, name: string, slot: nat): nat
    requires r.Valid()
    decreases |turns|
  {
    if turns == [] then 0
    else
      var first := TakeTurn(r, turns[0]);
      (if Warns(r, turns[0], name, slot) then 1 else 0)
      + if first.running then WarningsOf(first.after, turns[1..], name, slot) else 0
  }

  predicate NoWithdrawal(r: Runtime, turns: seq<Turn>)
    requires r.Valid()
    decreases |turns|
  {
    turns == [] ||
    (&& !Withdraws(TakeTurn(r, turns[0]).after.ui)
     && (TakeTurn(r, turns[0]).running ==> NoWithdrawal(TakeTurn(r, turns[0]).after, turns[1..])))
  }

  lemma {:induction false} StretchWarnsAtMost(r: Runtime, turns: seq<Turn>, name: string, slot: nat)
    requires r.Valid() && V.Describable(r) && NoticeBehind(r)
    requires FindRule(r.scheduler.Rules(), name).Some? && NoWithdrawal(r, turns)
    ensures WarningsOf(r, turns, name, slot) <= StillToCome(r, name, slot)
    decreases |turns|
  {
    if turns != [] {
      var after := TakeTurn(r, turns[0]).after;
      WarningIsUsedUp(r, turns[0], name, slot);
      if TakeTurn(r, turns[0]).running {
        TurnEffect(r, turns[0]);
        NoticeStaysBehind(r, after);
        V.TurnDescribable(r, turns[0]);
        StretchWarnsAtMost(after, turns[1..], name, slot);
      }
    }
  }

  lemma {:induction false} RunKeepsNoticeBehind(r: Runtime, turns: seq<Turn>)
    requires r.Valid() && V.Describable(r) && NoticeBehind(r)
    ensures V.Describable(R.Run(r, turns).after) && NoticeBehind(R.Run(r, turns).after)
    decreases |turns|
  {
    if turns != [] {
      var after := TakeTurn(r, turns[0]).after;
      TurnEffect(r, turns[0]);
      NoticeStaysBehind(r, after);
      V.TurnDescribable(r, turns[0]);
      if TakeTurn(r, turns[0]).running { RunKeepsNoticeBehind(after, turns[1..]); }
    }
  }

  /** From start-up, in any stretch of any run without a withdrawal, a break is announced at most twice. */
  lemma WarnedAtMostTwice(
    schedule: Schedule, localPeer: Option<PeerId>, before: seq<Turn>, stretch: seq<Turn>, name: string, slot: nat)
    requires ValidSchedule(schedule) && FindRule(schedule.rules, name).Some?
    requires NoWithdrawal(R.Run(New(schedule, localPeer), before).after, stretch)
    ensures WarningsOf(R.Run(New(schedule, localPeer), before).after, stretch, name, slot) <= 2
  {
    var start := New(schedule, localPeer);
    RunKeepsNoticeBehind(start, before);
    StretchWarnsAtMost(R.Run(start, before).after, stretch, name, slot);
  }
}
