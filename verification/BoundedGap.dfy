/** Through breaks of every origin, resets and merges, no rule falls behind by its whole interval. */
module BoundedGap {
  import opened Base
  import opened Schedules
  import opened SchedulerModel

  predicate NotAhead(last: map<string, nat>, r: Rule, slot: nat) { LastOf(last, r) <= slot }

  predicate WithinInterval(last: map<string, nat>, r: Rule, slot: nat) {
    LastOf(last, r) <= slot < LastOf(last, r) + r.interval
  }

  /** No rule has gone a whole interval without being satisfied. */
  predicate NotOverdue(s: Scheduler) { forall r | r in s.Rules() :: WithinInterval(s.last, r, s.slot) }

  predicate NeverAhead(s: Scheduler) { forall r | r in s.Rules() :: NotAhead(s.last, r, s.slot) }

  /** A position at which, by its own account, no rule has gone a whole interval. */
  predicate Recent(rules: seq<Rule>, p: Position) {
    forall r | r in rules :: p.slot < LastOf(p.last, r) + r.interval
  }

  lemma MergedLastAt(rules: seq<Rule>, last: map<string, nat>, incoming: map<string, nat>, slot: nat, r: Rule)
    requires WellOrdered(rules) && Covers(rules, last) && r in rules
    ensures LastOf(MergedLast(rules, last, incoming, slot), r)
         == Max(LastOf(last, r), Min(LastOf(incoming, r), slot))
  {
    RuleFacts(rules, r);
  }

  /** Merging such a position repairs even an overdue state that is not past it. */
  lemma MergeIsNotOverdue(s: Scheduler, p: Position)
    requires s.Valid() && Recent(s.Rules(), p) && NeverAhead(s)
    requires NotOverdue(s) || s.slot <= p.slot
    ensures NotOverdue(MergeSyncedPosition(s, p))
  {
    var after := MergeSyncedPosition(s, p);
    forall r | r in s.Rules() ensures WithinInterval(after.last, r, after.slot) {
      RuleFacts(s.Rules(), r);
      MergedLastAt(s.Rules(), s.last, p.last, after.slot, r);
      assert NotAhead(s.last, r, s.slot) && p.slot < LastOf(p.last, r) + r.interval;
    }
  }

  lemma AdvanceIsNotOverdue(s: Scheduler, elapsed: nat, pick: nat)
    requires s.Valid() && NotOverdue(s)
    ensures NotOverdue(AdvanceActive(s, elapsed, pick).after)
  {
    var after := AdvanceActive(s, elapsed, pick).after;
    if s.state == Ready(Active) {
      forall r | r in s.Rules() ensures WithinInterval(after.last, r, after.slot) {
        RuleFacts(s.Rules(), r);
        NextDueAtMost(s.Rules(), s.last, s.slot, r);
        assert WithinInterval(s.last, r, s.slot);
        if ReachedSlot(s, elapsed) >= NextSlot(s) {
          SatisfyScheduledAt(s.Rules(), s.last, NextSlot(s), NextRule(s), r);
          if DueAt(s.last, r, NextSlot(s)) {
            DueRuleIsLongest(s.Rules(), s.last, NextSlot(s), r);
          }
        }
      }
    }
  }

  lemma ManualSatisfactionIsNotOverdue(s: Scheduler, after: Scheduler, interval: nat)
    requires s.Valid() && NotOverdue(s)
    requires after.schedule == s.schedule && after.slot == s.slot
    requires after.last == SatisfyManual(s.Rules(), s.last, s.slot, interval)
    ensures NotOverdue(after)
  {
    forall r | r in s.Rules() ensures WithinInterval(after.last, r, after.slot) {
      RuleFacts(s.Rules(), r);
      SatisfyManualAt(s.Rules(), s.last, s.slot, interval, r);
      assert WithinInterval(s.last, r, s.slot);
    }
  }

  /** Adopting a peer's break and then its position, as the runtime does on a synced start. */
  function Adopted(o: Outcome, p: Position): Scheduler {
    if o.started.None? then o.after else MergeSyncedPosition(o.after, p)
  }

  /**
   * At the break's slot every rule longer than the break, which the break does not satisfy, is still
   * within its interval by the sender's own account.
   */
  predicate Covered(rules: seq<Rule>, interval: nat, slot: nat, p: Position) {
    forall r | r in rules && r.interval > interval :: slot < LastOf(p.last, r) + r.interval
  }

  /**
   * What has to be true of a position that comes with a break: where it lies past the break it counts
   * by itself, and otherwise it has to cover the break. A break that is not taken over does not matter.
   */
  predicate JoinSound(rules: seq<Rule>, name: string, origin: Origin, p: Position) {
    match FindRule(rules, name)
    case None => true
    case Some(rule) =>
      match origin
      case Manual => Recent(rules, p)
      case Scheduled(slot) =>
        slot == 0 || (if p.slot <= slot then Covered(rules, rule.interval, slot, p) else Recent(rules, p))
  }

  /** A position at or past the slot of the break is enough. */
  lemma RecentIsJoinSound(rules: seq<Rule>, name: string, origin: Origin, p: Position)
    requires Recent(rules, p) && (origin.Scheduled? ==> origin.slot <= p.slot)
    ensures JoinSound(rules, name, origin, p)
  {
  }

  lemma NotOverdueIsNeverAhead(s: Scheduler)
    requires NotOverdue(s)
    ensures NeverAhead(s)
  {
    forall r | r in s.Rules() ensures NotAhead(s.last, r, s.slot) { assert WithinInterval(s.last, r, s.slot); }
  }

  /** What a rule's last-satisfied slot becomes when a scheduled break is joined. */
  lemma JoinedAt(s: Scheduler, rule: Rule, slot: nat, p: Position, r: Rule)
    requires s.Valid() && rule in s.Rules() && r in s.Rules()
    ensures LastOf(MergedLast(s.Rules(), SatisfyScheduled(s.Rules(), s.last, slot, rule.name), p.last, Max(slot, p.slot)), r)
         == Max(if r.interval <= rule.interval && DueAt(s.last, r, slot) then slot else LastOf(s.last, r),
                Min(LastOf(p.last, r), Max(slot, p.slot)))
  {
    SatisfyScheduledAt(s.Rules(), s.last, slot, rule, r);
    MergedLastAt(s.Rules(), SatisfyScheduled(s.Rules(), s.last, slot, rule.name), p.last, Max(slot, p.slot), r);
  }

  lemma JoinedWithin(s: Scheduler, rule: Rule, slot: nat, p: Position, r: Rule)
    requires s.Valid() && rule in s.Rules() && r in s.Rules() && s.slot <= slot
    requires WithinInterval(s.last, r, s.slot)
    requires if p.slot <= slot then r.interval > rule.interval ==> slot < LastOf(p.last, r) + r.interval
             else p.slot < LastOf(p.last, r) + r.interval
    ensures WithinInterval(
      MergedLast(s.Rules(), SatisfyScheduled(s.Rules(), s.last, slot, rule.name), p.last, Max(slot, p.slot)),
      r, Max(slot, p.slot))
  {
    RuleFacts(s.Rules(), r);
    JoinedAt(s, rule, slot, p, r);
  }

  lemma ScheduledAdoptionIsNotOverdue(s: Scheduler, name: string, slot: nat, p: Position, after: Scheduler)
    requires s.Valid() && NotOverdue(s) && JoinSound(s.Rules(), name, Origin.Scheduled(slot), p)
    requires 0 < slot && s.slot <= slot && FindRule(s.Rules(), name).Some?
    requires after.schedule == s.schedule && after.slot == slot
    requires after.last == SatisfyScheduled(s.Rules(), s.last, slot, name)
    ensures NotOverdue(MergeSyncedPosition(after, p))
  {
    forall r | r in s.Rules()
      ensures WithinInterval(MergeSyncedPosition(after, p).last, r, MergeSyncedPosition(after, p).slot)
    {
      assert WithinInterval(s.last, r, s.slot);
      JoinedWithin(s, FindRule(s.Rules(), name).value, slot, p, r);
    }
  }

  lemma AdoptionIsNotOverdue(s: Scheduler, name: string, origin: Origin, p: Position, after: Scheduler)
    requires s.Valid() && NotOverdue(s) && JoinSound(s.Rules(), name, origin, p)
    requires FindRule(s.Rules(), name).Some? && origin != Origin.Scheduled(0) && AdoptSyncedOrigin(s, name, origin).Some?
    requires var adopted := AdoptSyncedOrigin(s, name, origin).value;
      after.schedule == adopted.schedule && after.slot == adopted.slot && after.last == adopted.last
    ensures NotOverdue(MergeSyncedPosition(after, p))
  {
    if origin.Manual? {
      ManualSatisfactionIsNotOverdue(s, after, FindRule(s.Rules(), name).value.interval);
      NotOverdueIsNeverAhead(after);
      MergeIsNotOverdue(after, p);
    } else {
      ScheduledAdoptionIsNotOverdue(s, name, origin.slot, p, after);
    }
  }

  lemma FreshIsNotOverdue(schedule: Schedule)
    requires ValidSchedule(schedule)
    ensures NotOverdue(New(schedule))
  {
    var s := New(schedule);
    forall r | r in s.Rules() ensures WithinInterval(s.last, r, s.slot) { RuleFacts(s.Rules(), r); }
  }

  datatype Op =
    | Advance(elapsed: nat, pick: nat)
    | StartManual(name: string, pick: nat)
    | JoinBreak(name: string, origin: Origin, position: Position, pick: nat)
    | ReplaceBreak(name: string, origin: Origin, position: Position, pick: nat)
    | Merge(position: Position)
    | Finish
    | TurnOff
    | TurnOn
    | ResetTime
    | ResetAll

  function Apply(s: Scheduler, op: Op): (after: Scheduler)
    requires s.Valid()
    ensures after.Valid() && after.schedule == s.schedule
  {
    match op
    case Advance(elapsed, pick) => AdvanceActive(s, elapsed, pick).after
    case StartManual(name, pick) => StartManualBreak(s, name, pick).after
    case JoinBreak(name, origin, p, pick) => Adopted(StartActiveSyncedBreak(s, name, origin, pick), p)
    case ReplaceBreak(name, origin, p, pick) => Adopted(ReplacementSyncedBreak(s, name, origin, pick), p)
    case Merge(p) => MergeSyncedPosition(s, p)
    case Finish => FinishBreak(s)
    case TurnOff => Disable(s)
    case TurnOn => Enable(s)
    case ResetTime => ResetActiveTime(s)
    case ResetAll => ResetPosition(s)
  }

  /** What peers may send; `SafeOpIffSound` proves that nothing less will do. */
  predicate SoundOp(rules: seq<Rule>, op: Op) {
    match op
    case JoinBreak(name, origin, p, _) => JoinSound(rules, name, origin, p)
    case ReplaceBreak(name, origin, p, _) => JoinSound(rules, name, origin, p)
    case Merge(p) => Recent(rules, p)
    case _ => true
  }

  lemma StepIsNotOverdue(s: Scheduler, op: Op)
    requires s.Valid() && NotOverdue(s) && SoundOp(s.Rules(), op)
    ensures NotOverdue(Apply(s, op))
  {
    AllRuleFacts(s.Rules());
    match op
    case Advance(elapsed, pick) => AdvanceIsNotOverdue(s, elapsed, pick);
    case StartManual(name, pick) =>
      var o := StartManualBreak(s, name, pick);
      if o.started.Some? {
        ManualSatisfactionIsNotOverdue(s, o.after, FindRule(s.Rules(), name).value.interval);
      }
    case JoinBreak(name, origin, p, pick) =>
      var o := StartActiveSyncedBreak(s, name, origin, pick);
      if o.started.Some? { AdoptionIsNotOverdue(s, name, origin, p, o.after); }
    case ReplaceBreak(name, origin, p, pick) =>
      var o := ReplacementSyncedBreak(s, name, origin, pick);
      if o.started.Some? { AdoptionIsNotOverdue(s, name, origin, p, o.after); }
    case Merge(p) =>
      NotOverdueIsNeverAhead(s);
      MergeIsNotOverdue(s, p);
    case ResetAll =>
      forall r | r in s.Rules() ensures WithinInterval(ResetPosition(s).last, r, 0) { RuleFacts(s.Rules(), r); }
    case _ =>
      forall r | r in s.Rules() ensures WithinInterval(Apply(s, op).last, r, Apply(s, op).slot) {
        assert WithinInterval(s.last, r, s.slot);
      }
  }

  function Run(s: Scheduler, ops: seq<Op>): (after: Scheduler)
    requires s.Valid()
    ensures after.Valid() && after.schedule == s.schedule
    decreases |ops|
  {
    if ops == [] then s else Run(Apply(s, ops[0]), ops[1..])
  }

  /** The bounded gap over whole runs of every scheduler operation. */
  lemma {:induction false} RunIsNotOverdue(s: Scheduler, ops: seq<Op>)
    requires s.Valid() && NotOverdue(s)
    requires forall op | op in ops :: SoundOp(s.Rules(), op)
    ensures NotOverdue(Run(s, ops))
    decreases |ops|
  {
    if ops != [] {
      StepIsNotOverdue(s, ops[0]);
      RunIsNotOverdue(Apply(s, ops[0]), ops[1..]);
    }
  }

  /** A position broadcast by a machine that is not overdue is a recent one for its peers. */
  lemma BroadcastPositionIsRecent(s: Scheduler)
    requires s.Valid() && NotOverdue(s)
    ensures Recent(s.Rules(), PositionOf(s))
  {
    forall r | r in s.Rules() ensures s.slot < LastOf(s.last, r) + r.interval {
      assert WithinInterval(s.last, r, s.slot);
    }
  }

  /** What such a machine announces with a break of its own keeps its peers from falling behind. */
  lemma OwnStartIsSound(s: Scheduler, elapsed: nat, name: string, pick: nat, otherPick: nat)
    requires s.Valid() && NotOverdue(s)
    ensures var o := AdvanceActive(s, elapsed, pick);
      o.started.Some? ==>
        SoundOp(s.Rules(), JoinBreak(o.started.value.name, o.started.value.origin, PositionOf(o.after), otherPick))
    ensures var o := StartManualBreak(s, name, pick);
      o.started.Some? ==> SoundOp(s.Rules(), JoinBreak(name, o.started.value.origin, PositionOf(o.after), otherPick))
  {
    var o, m := AdvanceActive(s, elapsed, pick), StartManualBreak(s, name, pick);
    StepIsNotOverdue(s, Advance(elapsed, pick));
    BroadcastPositionIsRecent(o.after);
    if o.started.Some? {
      RecentIsJoinSound(s.Rules(), o.started.value.name, o.started.value.origin, PositionOf(o.after));
    }
    StepIsNotOverdue(s, StartManual(name, pick));
    BroadcastPositionIsRecent(m.after);
  }

  /** So does a snapshot, as long as the position is not reset to before the break it shows. */
  lemma SnapshotIsSound(s: Scheduler, name: string, origin: Origin, pick: nat)
    requires s.Valid() && NotOverdue(s) && (origin.Scheduled? ==> origin.slot <= s.slot)
    ensures SoundOp(s.Rules(), JoinBreak(name, origin, PositionOf(s), pick))
  {
    BroadcastPositionIsRecent(s);
    RecentIsJoinSound(s.Rules(), name, origin, PositionOf(s));
  }

  /** In a ready state a manual start is accepted exactly when the availability map offers it. */
  lemma ManualStartMatchesAvailability(s: Scheduler, name: string, pick: nat)
    requires s.Valid() && s.state.Ready?
    ensures StartManualBreak(s, name, pick).started.Some?
      <==> name in ManualBreakAvailability(s) && ManualBreakAvailability(s)[name]
  {
  }

  /** Satisfying the frequent rules by hand moves their due slots a whole interval away, and no other. */
  lemma ManualSatisfactionMovesDueSlots(s: Scheduler, chosen: Rule, r: Rule)
    requires s.Valid() && r in s.Rules()
    ensures NextDueFor(SatisfyManual(s.Rules(), s.last, s.slot, chosen.interval), r, s.slot)
         == if r.interval > chosen.interval then NextDueFor(s.last, r, s.slot) else s.slot + r.interval
  {
    SatisfyManualAt(s.Rules(), s.last, s.slot, chosen.interval, r);
    RuleFacts(s.Rules(), r);
  }

  /** An accepted manual break is never shorter than the break that was next. */
  lemma ManualBreakIsNotAnEscape(s: Scheduler, name: string, pick: nat)
    requires s.Valid() && StartManualBreak(s, name, pick).started.Some?
    ensures FindRule(s.Rules(), name).Some?
    ensures UpcomingBreak(s).Some? ==>
      UpcomingBreak(s).value.rule.interval <= FindRule(s.Rules(), name).value.interval
  {
  }

  /**
   * A manual break moves the due slot of its own and of more frequent rules to a whole interval
   * from now, and never that of a longer rule.
   */
  lemma ManualStartKeepsLongerRules(s: Scheduler, name: string, pick: nat, r: Rule)
    requires s.Valid() && r in s.Rules()
    requires StartManualBreak(s, name, pick).started.Some?
    ensures FindRule(s.Rules(), name).Some?
    ensures StartManualBreak(s, name, pick).after.slot == s.slot
    ensures NextDueFor(StartManualBreak(s, name, pick).after.last, r, s.slot)
         == if r.interval > FindRule(s.Rules(), name).value.interval then NextDueFor(s.last, r, s.slot)
            else s.slot + r.interval
  {
    ManualSatisfactionMovesDueSlots(s, FindRule(s.Rules(), name).value, r);
  }
}
