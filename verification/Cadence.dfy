/**
 * What the per-rule bookkeeping achieves: without manual and synced breaks it is the plain
 * "every n-th slot" rule, and with them no rule is ever overdue.
 */
module Cadence {
  import opened Base
  import opened Schedules
  import opened SchedulerModel

  predicate Divides(interval: nat, n: nat)
    requires interval > 0
  {
    Remainder(n, interval) == 0
  }

  /** `m` is the largest multiple of the interval that is not above the slot. */
  predicate LargestMultiple(m: nat, interval: nat, slot: nat)
    requires interval > 0
  {
    Divides(interval, m) && m <= slot < m + interval
  }

  lemma {:induction false} NextMultiple(interval: nat, m: nat)
    requires interval > 0 && Divides(interval, m)
    ensures Divides(interval, m + interval)
    ensures forall n :: m < n < m + interval ==> !Divides(interval, n)
  {
    if m >= interval {
      NextMultiple(interval, m - interval);
      forall n | m < n < m + interval ensures !Divides(interval, n) {
        assert !Divides(interval, n - interval);
      }
    } else {
      assert Remainder(interval, interval) == Remainder(0, interval);
    }
  }

  predicate OnCadence(s: Scheduler)
    requires s.Valid()
  {
    forall r | r in s.Rules() :: r.interval > 0 && LargestMultiple(LastOf(s.last, r), r.interval, s.slot)
  }

  /** Between break starts the next due slot is the next multiple of any interval. */
  lemma NextSlotIsFirstMultiple(s: Scheduler, r: Rule, t: nat)
    requires s.Valid() && OnCadence(s) && r in s.Rules() && s.slot < t <= NextSlot(s)
    ensures r.interval > 0
    ensures Divides(r.interval, t) <==> DueAt(s.last, r, t)
    ensures Divides(r.interval, t) ==> t == NextSlot(s)
  {
    var m := LastOf(s.last, r);
    NextMultiple(r.interval, m);
    NextDueAtMost(s.Rules(), s.last, s.slot, r);
  }

  /** Starting the due break moves every rule that divides the slot, and no other. */
  lemma BeginKeepsCadence(s: Scheduler)
    requires s.Valid() && OnCadence(s)
    ensures OnCadence(BeginScheduled(s, NextSlot(s), NextRule(s)))
  {
    var next, chosen := NextSlot(s), NextRule(s);
    var after := BeginScheduled(s, next, chosen);
    forall r | r in s.Rules()
      ensures r.interval > 0 && LargestMultiple(LastOf(after.last, r), r.interval, next)
    {
      NextSlotIsFirstMultiple(s, r, next);
      SatisfyScheduledAt(s.Rules(), s.last, next, chosen, r);
      if DueAt(s.last, r, next) {
        DueRuleIsLongest(s.Rules(), s.last, next, r);
      }
    }
  }

  lemma PassKeepsCadence(s: Scheduler, slot: nat, elapsed: nat)
    requires s.Valid() && OnCadence(s) && s.slot <= slot < NextSlot(s)
    ensures OnCadence(s.(slot := slot, activeElapsed := elapsed))
  {
    forall r | r in s.Rules()
      ensures r.interval > 0 && LargestMultiple(LastOf(s.last, r), r.interval, slot)
    {
      NextDueAtMost(s.Rules(), s.last, s.slot, r);
    }
  }

  lemma AdvanceKeepsCadence(s: Scheduler, elapsed: nat, pick: nat)
    requires s.Valid() && OnCadence(s)
    ensures OnCadence(AdvanceActive(s, elapsed, pick).after)
  {
    if s.state == Ready(Active) {
      if ReachedSlot(s, elapsed) >= NextSlot(s) {
        BeginKeepsCadence(s);
      } else {
        PassKeepsCadence(s, ReachedSlot(s, elapsed), Remainder(s.activeElapsed + elapsed, s.schedule.afterActive));
      }
    }
  }

  /**
   * At every slot an advance visits, a break starts exactly when some interval divides the slot,
   * and it is the one with the largest such interval.
   */
  lemma StartsAtMultiples(s: Scheduler, elapsed: nat, pick: nat, t: nat)
    requires s.Valid() && OnCadence(s)
    requires s.slot < t <= AdvanceActive(s, elapsed, pick).after.slot
    ensures AllRulesPositive(s.Rules())
    ensures var started := AdvanceActive(s, elapsed, pick).started;
      && ((started.Some? && started.value.origin == Origin.Scheduled(t))
          <==> exists r | r in s.Rules() :: Divides(r.interval, t))
      && (started.Some? && started.value.origin == Origin.Scheduled(t) ==>
            exists chosen | chosen in s.Rules() && chosen.name == started.value.name ::
              LongestDividing(s.Rules(), chosen, t))
  {
    AllRuleFacts(s.Rules());
    forall r | r in s.Rules()
      ensures Divides(r.interval, t) <==> DueAt(s.last, r, t)
      ensures Divides(r.interval, t) ==> t == NextSlot(s)
    {
      NextSlotIsFirstMultiple(s, r, t);
    }
    DueFromNextDue(s.Rules(), s.last, s.slot, t);
    if t == NextSlot(s) {
      var chosen := NextRule(s);
      forall r | r in s.Rules() && Divides(r.interval, t) ensures r.interval <= chosen.interval {
        DueRuleIsLongest(s.Rules(), s.last, t, r);
      }
      assert LongestDividing(s.Rules(), chosen, t);
    }
  }

  predicate AllRulesPositive(rules: seq<Rule>) { forall r | r in rules :: r.interval > 0 }

  predicate LongestDividing(rules: seq<Rule>, chosen: Rule, t: nat)
    requires AllRulesPositive(rules)
  {
    && chosen in rules && Divides(chosen.interval, t)
    && forall r | r in rules && Divides(r.interval, t) :: r.interval <= chosen.interval
  }

  /** The operations of a machine that is alone and whose user starts nothing by hand. */
  datatype SoloOp =
    | Advance(elapsed: nat, pick: nat)
    | Finish
    | TurnOff
    | TurnOn
    | ResetTime
    | ResetAll

  function Solo(s: Scheduler, op: SoloOp): (after: Scheduler)
    requires s.Valid()
    ensures after.Valid() && after.schedule == s.schedule
  {
    match op
    case Advance(elapsed, pick) => AdvanceActive(s, elapsed, pick).after
    case Finish => FinishBreak(s)
    case TurnOff => Disable(s)
    case TurnOn => Enable(s)
    case ResetTime => ResetActiveTime(s)
    case ResetAll => ResetPosition(s)
  }

  function SoloRun(s: Scheduler, ops: seq<SoloOp>): (after: Scheduler)
    requires s.Valid()
    ensures after.Valid() && after.schedule == s.schedule
    decreases |ops|
  {
    if ops == [] then s else SoloRun(Solo(s, ops[0]), ops[1..])
  }

  lemma SoloKeepsCadence(s: Scheduler, op: SoloOp)
    requires s.Valid() && OnCadence(s)
    ensures OnCadence(Solo(s, op))
  {
    AllRuleFacts(s.Rules());
    if op.Advance? {
      AdvanceKeepsCadence(s, op.elapsed, op.pick);
    }
  }

  lemma {:induction false} SoloRunKeepsCadence(s: Scheduler, ops: seq<SoloOp>)
    requires s.Valid() && OnCadence(s)
    ensures OnCadence(SoloRun(s, ops))
    decreases |ops|
  {
    if ops != [] {
      SoloKeepsCadence(s, ops[0]);
      SoloRunKeepsCadence(Solo(s, ops[0]), ops[1..]);
    }
  }

  /** From a fresh start, after any such run, the modulo rule decides every further break. */
  lemma CadenceRefinesModulo(schedule: Schedule, ops: seq<SoloOp>, elapsed: nat, pick: nat, t: nat)
    requires ValidSchedule(schedule)
    requires var s := SoloRun(New(schedule), ops); s.slot < t <= AdvanceActive(s, elapsed, pick).after.slot
    ensures AllRulesPositive(schedule.rules)
    ensures var s := SoloRun(New(schedule), ops);
      var started := AdvanceActive(s, elapsed, pick).started;
      && OnCadence(s)
      && ((started.Some? && started.value.origin == Origin.Scheduled(t))
          <==> exists r | r in schedule.rules :: Divides(r.interval, t))
      && (started.Some? && started.value.origin == Origin.Scheduled(t) ==>
            exists chosen | chosen in schedule.rules && chosen.name == started.value.name ::
              LongestDividing(schedule.rules, chosen, t))
  {
    AllRuleFacts(schedule.rules);
    SoloRunKeepsCadence(New(schedule), ops);
    StartsAtMultiples(SoloRun(New(schedule), ops), elapsed, pick, t);
  }
}
