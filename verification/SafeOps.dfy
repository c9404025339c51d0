/** Exactly which positions a peer may send without leaving anyone overdue who was not. */
module SafeOps {
  import opened Base
  import opened Schedules
  import opened SchedulerModel
  import opened BoundedGap

  /** Whoever is not overdue is not overdue after the operation either. */
  ghost predicate SafeOp(schedule: Schedule, op: Op) {
    forall s: Scheduler | s.Valid() && s.schedule == schedule && NotOverdue(s) :: NotOverdue(Apply(s, op))
  }

  /** A machine at a slot where every rule was just satisfied. */
  function StandingAt(schedule: Schedule, slot: nat): (s: Scheduler)
    requires ValidSchedule(schedule)
    ensures s.Valid()
  {
    New(schedule).(slot := slot, last := map n | n in RuleNames(schedule.rules) :: slot)
  }

  lemma StandingIsNotOverdue(schedule: Schedule, slot: nat)
    requires ValidSchedule(schedule)
    ensures NotOverdue(StandingAt(schedule, slot))
    ensures forall r | r in schedule.rules :: LastOf(StandingAt(schedule, slot).last, r) == slot
  {
    forall r | r in schedule.rules
      ensures LastOf(StandingAt(schedule, slot).last, r) == slot && WithinInterval(StandingAt(schedule, slot).last, r, slot)
    {
      RuleFacts(schedule.rules, r);
    }
  }

  /** Merging a position at which a rule is overdue leaves a machine that has just started overdue. */
  lemma FreshFallsBehindOnMerge(schedule: Schedule, p: Position, r: Rule)
    requires ValidSchedule(schedule) && r in schedule.rules && p.slot >= LastOf(p.last, r) + r.interval
    ensures !NotOverdue(MergeSyncedPosition(StandingAt(schedule, 0), p))
  {
    var s := StandingAt(schedule, 0);
    var after := MergeSyncedPosition(s, p);
    StandingIsNotOverdue(schedule, 0);
    MergedLastAt(s.Rules(), s.last, p.last, after.slot, r);
    assert !WithinInterval(after.last, r, after.slot);
  }

  /** The state after a break of a rule at a slot is taken over, by joining or by replacing. */
  predicate TakenOver(s: Scheduler, rule: Rule, slot: nat, p: Position, after: Scheduler) {
    && after.schedule == s.schedule && after.slot == Max(slot, p.slot)
    && after.last == MergedLast(s.Rules(), SatisfyScheduled(s.Rules(), s.last, slot, rule.name), p.last, Max(slot, p.slot))
  }

  /** A position not past the break that does not cover a longer rule leaves a newcomer overdue for that. */
  lemma FreshFallsBehind(schedule: Schedule, rule: Rule, slot: nat, p: Position, r: Rule, after: Scheduler)
    requires ValidSchedule(schedule) && rule in schedule.rules && r in schedule.rules
    requires r.interval > rule.interval && p.slot <= slot && slot >= LastOf(p.last, r) + r.interval
    requires TakenOver(StandingAt(schedule, 0), rule, slot, p, after)
    ensures !NotOverdue(after)
  {
    StandingIsNotOverdue(schedule, 0);
    JoinedAt(StandingAt(schedule, 0), rule, slot, p, r);
    assert !WithinInterval(after.last, r, after.slot);
  }

  /** Where a machine has to stand so that a position past the break, overdue for a rule, shows. */
  function BehindFor(slot: nat, r: Rule): nat { SaturatingSub(slot + 1, r.interval) }

  lemma LateFallsBehind(schedule: Schedule, rule: Rule, slot: nat, p: Position, r: Rule, after: Scheduler)
    requires ValidSchedule(schedule) && rule in schedule.rules && r in schedule.rules
    requires slot < p.slot && p.slot >= LastOf(p.last, r) + r.interval
    requires TakenOver(StandingAt(schedule, BehindFor(slot, r)), rule, slot, p, after)
    ensures BehindFor(slot, r) <= slot && !NotOverdue(after)
  {
    RuleFacts(schedule.rules, r);
    StandingIsNotOverdue(schedule, BehindFor(slot, r));
    JoinedAt(StandingAt(schedule, BehindFor(slot, r)), rule, slot, p, r);
    assert !WithinInterval(after.last, r, after.slot);
  }

  lemma ManualFallsBehind(schedule: Schedule, rule: Rule, p: Position, r: Rule, after: Scheduler)
    requires ValidSchedule(schedule) && rule in schedule.rules && r in schedule.rules
    requires p.slot >= LastOf(p.last, r) + r.interval
    requires var s := StandingAt(schedule, 0);
      && after.schedule == schedule && after.slot == p.slot
      && after.last == MergedLast(s.Rules(), SatisfyManual(s.Rules(), s.last, 0, rule.interval), p.last, p.slot)
    ensures !NotOverdue(after)
  {
    var s := StandingAt(schedule, 0);
    StandingIsNotOverdue(schedule, 0);
    SatisfyManualAt(s.Rules(), s.last, 0, rule.interval, r);
    MergedLastAt(s.Rules(), SatisfyManual(s.Rules(), s.last, 0, rule.interval), p.last, p.slot, r);
    assert !WithinInterval(after.last, r, after.slot);
  }

  /** Two states that agree on everything falling behind depends on. */
  predicate SamePlace(a: Scheduler, b: Scheduler) { a.schedule == b.schedule && a.slot == b.slot && a.last == b.last }

  lemma JoinMerges(s: Scheduler, name: string, origin: Origin, p: Position, pick: nat)
    requires s.Valid() && s.state.Ready? && FindRule(s.Rules(), name).Some? && origin != Origin.Scheduled(0)
    requires AdoptSyncedOrigin(s, name, origin).Some?
    ensures SamePlace(Apply(s, JoinBreak(name, origin, p, pick)),
                      MergeSyncedPosition(AdoptSyncedOrigin(s, name, origin).value, p))
  {
    assert StartActiveSyncedBreak(s, name, origin, pick).started.Some?;
  }

  lemma ReplacementAdopts(s: Scheduler, name: string, origin: Origin, pick: nat)
    requires FindRule(s.Rules(), name).Some? && origin != Origin.Scheduled(0)
    requires AdoptSyncedOrigin(s, name, origin).Some?
    ensures var o := ReplacementSyncedBreak(s, name, origin, pick);
      o.started.Some? && o.after == AdoptSyncedOrigin(s, name, origin).value
  {
  }

  lemma ReplaceIsAdopted(s: Scheduler, name: string, origin: Origin, p: Position, pick: nat)
    requires s.Valid()
    ensures Apply(s, ReplaceBreak(name, origin, p, pick)) == Adopted(ReplacementSyncedBreak(s, name, origin, pick), p)
  {
  }

  lemma AdoptedMerges(o: Outcome, p: Position, adopted: Scheduler)
    requires o.started.Some? && o.after == adopted
    ensures Adopted(o, p) == MergeSyncedPosition(adopted, p)
  {
  }

  lemma SamePlaceOverdue(a: Scheduler, b: Scheduler)
    requires SamePlace(a, b) && !NotOverdue(b)
    ensures !NotOverdue(a)
  {
    var r :| r in b.Rules() && !WithinInterval(b.last, r, b.slot);
    assert !WithinInterval(a.last, r, a.slot);
  }

  lemma BothFallBehind(s: Scheduler, name: string, origin: Origin, p: Position, pick: nat)
    requires s.Valid() && s.state.Ready? && FindRule(s.Rules(), name).Some? && origin != Origin.Scheduled(0)
    requires AdoptSyncedOrigin(s, name, origin).Some?
    requires !NotOverdue(MergeSyncedPosition(AdoptSyncedOrigin(s, name, origin).value, p))
    ensures !NotOverdue(Apply(s, JoinBreak(name, origin, p, pick)))
    ensures !NotOverdue(Apply(s, ReplaceBreak(name, origin, p, pick)))
  {
    var merged := MergeSyncedPosition(AdoptSyncedOrigin(s, name, origin).value, p);
    JoinMerges(s, name, origin, p, pick);
    ReplacementAdopts(s, name, origin, pick);
    ReplaceIsAdopted(s, name, origin, p, pick);
    AdoptedMerges(ReplacementSyncedBreak(s, name, origin, pick), p, AdoptSyncedOrigin(s, name, origin).value);
    SamePlaceOverdue(Apply(s, JoinBreak(name, origin, p, pick)), merged);
  }

  lemma ScheduledFallsBehind(s: Scheduler, name: string, slot: nat, p: Position, pick: nat, r: Rule)
    requires ValidSchedule(s.schedule) && r in s.Rules() && FindRule(s.Rules(), name).Some? && slot > 0
    requires s == StandingAt(s.schedule, if slot < p.slot then BehindFor(slot, r) else 0)
    requires if p.slot <= slot
             then r.interval > FindRule(s.Rules(), name).value.interval && slot >= LastOf(p.last, r) + r.interval
             else p.slot >= LastOf(p.last, r) + r.interval
    ensures !NotOverdue(Apply(s, JoinBreak(name, Origin.Scheduled(slot), p, pick)))
    ensures !NotOverdue(Apply(s, ReplaceBreak(name, Origin.Scheduled(slot), p, pick)))
  {
    var rule := FindRule(s.Rules(), name).value;
    RuleFacts(s.Rules(), r);
    var merged := MergeSyncedPosition(AdoptSyncedOrigin(s, name, Origin.Scheduled(slot)).value, p);
    if p.slot <= slot {
      FreshFallsBehind(s.schedule, rule, slot, p, r, merged);
    } else {
      LateFallsBehind(s.schedule, rule, slot, p, r, merged);
    }
    BothFallBehind(s, name, Origin.Scheduled(slot), p, pick);
  }

  lemma ManualOpFallsBehind(s: Scheduler, name: string, p: Position, pick: nat, r: Rule)
    requires ValidSchedule(s.schedule) && r in s.Rules() && FindRule(s.Rules(), name).Some?
    requires s == StandingAt(s.schedule, 0) && p.slot >= LastOf(p.last, r) + r.interval
    ensures !NotOverdue(Apply(s, JoinBreak(name, Manual, p, pick)))
    ensures !NotOverdue(Apply(s, ReplaceBreak(name, Manual, p, pick)))
  {
    var merged := MergeSyncedPosition(AdoptSyncedOrigin(s, name, Manual).value, p);
    ManualFallsBehind(s.schedule, FindRule(s.Rules(), name).value, p, r, merged);
    BothFallBehind(s, name, Manual, p, pick);
  }

  /** The machine that a join with an unsound position leaves overdue. */
  lemma UnsoundJoinFallsBehind(schedule: Schedule, name: string, origin: Origin, p: Position) returns (s: Scheduler)
    requires ValidSchedule(schedule) && !JoinSound(schedule.rules, name, origin, p)
    ensures s.Valid() && s.schedule == schedule && NotOverdue(s)
    ensures forall pick :: !NotOverdue(Apply(s, JoinBreak(name, origin, p, pick)))
    ensures forall pick :: !NotOverdue(Apply(s, ReplaceBreak(name, origin, p, pick)))
  {
    var rules := schedule.rules;
    var rule := FindRule(rules, name).value;
    var r: Rule;
    if origin.Scheduled? && p.slot <= origin.slot {
      r :| r in rules && r.interval > rule.interval && origin.slot >= LastOf(p.last, r) + r.interval;
    } else {
      r :| r in rules && p.slot >= LastOf(p.last, r) + r.interval;
    }
    s := StandingAt(schedule, if origin.Scheduled? && origin.slot < p.slot then BehindFor(origin.slot, r) else 0);
    StandingIsNotOverdue(schedule, s.slot);
    RuleFacts(rules, r);
    forall pick
      ensures !NotOverdue(Apply(s, JoinBreak(name, origin, p, pick)))
      ensures !NotOverdue(Apply(s, ReplaceBreak(name, origin, p, pick)))
    {
      match origin
      case Manual => ManualOpFallsBehind(s, name, p, pick, r);
      case Scheduled(slot) => ScheduledFallsBehind(s, name, slot, p, pick, r);
    }
  }

  /** What the run theorem asks of peers is exact, operation by operation and for any position at all. */
  lemma SafeOpIffSound(schedule: Schedule, op: Op)
    requires ValidSchedule(schedule)
    ensures SafeOp(schedule, op) <==> SoundOp(schedule.rules, op)
  {
    if SoundOp(schedule.rules, op) {
      forall s: Scheduler | s.Valid() && s.schedule == schedule && NotOverdue(s) ensures NotOverdue(Apply(s, op)) {
        StepIsNotOverdue(s, op);
      }
    } else if op.Merge? {
      var r :| r in schedule.rules && op.position.slot >= LastOf(op.position.last, r) + r.interval;
      StandingIsNotOverdue(schedule, 0);
      FreshFallsBehindOnMerge(schedule, op.position, r);
      assert !NotOverdue(Apply(StandingAt(schedule, 0), op));
    } else {
      var s := UnsoundJoinFallsBehind(schedule, op.name, op.origin, op.position);
      assert !NotOverdue(Apply(s, op));
    }
  }
}
