/** The predicted break is the one that starts, whenever and in whatever portions time is fed in. */
module Prediction {
  import opened Base
  import opened Schedules
  import opened SchedulerModel
  import G = BoundedGap

  /** The prediction is right about every amount of active time. */
  ghost predicate PredictsExactly(s: Scheduler, pick: nat)
    requires s.Valid() && s.state == Ready(Active)
  {
    forall elapsed: nat :: PredictsFor(s, elapsed, pick)
  }

  /**
   * Less time than predicted starts nothing and shortens the prediction by that much; otherwise
   * exactly the predicted rule starts, at the predicted slot.
   */
  predicate PredictsFor(s: Scheduler, elapsed: nat, pick: nat)
    requires s.Valid() && s.state == Ready(Active)
  {
    var upcoming := UpcomingBreak(s).value;
    var o := AdvanceActive(s, elapsed, pick);
    if elapsed < upcoming.startsAfter then
      && o.started.None?
      && UpcomingBreak(o.after) == Some(upcoming.(startsAfter := upcoming.startsAfter - elapsed))
    else
      && o.started == Some(ToBreak(upcoming.rule, Origin.Scheduled(upcoming.slot), pick))
      && o.after.slot == upcoming.slot
      && o.after.state == Pending(Active)
  }

  /** Either the slot in progress is not overfull, or the very next slot is due. */
  predicate Predictable(s: Scheduler)
    requires s.Valid()
  {
    s.activeElapsed <= s.schedule.afterActive || NextSlot(s) == s.slot + 1
  }

  lemma PredictionExact(s: Scheduler, elapsed: nat, pick: nat)
    requires s.Valid() && s.state == Ready(Active) && Predictable(s)
    ensures PredictsFor(s, elapsed, pick)
  {
    var unit := s.schedule.afterActive;
    var gap := NextSlot(s) - s.slot;
    var upcoming := UpcomingBreak(s).value;
    assert Times(gap, unit) == Times(gap - 1, unit) + unit;
    if elapsed >= upcoming.startsAfter {
      AdvanceStarts(s, elapsed, pick, s.activeElapsed + elapsed - Times(gap, unit));
    } else {
      FilledBefore(s, elapsed, pick);
    }
  }

  /** Time that stops short of the next due slot leaves the rest of the wait. */
  lemma FilledBefore(s: Scheduler, elapsed: nat, pick: nat)
    requires s.Valid() && s.state == Ready(Active) && Predictable(s)
    requires elapsed < UpcomingBreak(s).value.startsAfter
    ensures PredictsFor(s, elapsed, pick)
  {
    var unit := s.schedule.afterActive;
    var total := s.activeElapsed + elapsed;
    var filled, rest := Quotient(total, unit), Remainder(total, unit);
    var gap := NextSlot(s) - s.slot;
    assert Times(gap, unit) == Times(gap - 1, unit) + unit;
    QuotientParts(total, unit);
    if filled >= gap {
      TimesAdd(gap, filled - gap, unit);
      assert false;
    }
    AdvancePasses(s, elapsed, pick, filled, rest);
    var after := AdvanceActive(s, elapsed, pick).after;
    NextDueStable(s.Rules(), s.last, s.slot, s.slot + filled);
    assert NextSlot(after) == NextSlot(s) && NextRule(after) == NextRule(s);
    TimesAdd(filled, gap - filled - 1, unit);
  }

  lemma {:induction false} QuotientParts(total: nat, unit: nat)
    requires unit > 0
    ensures total == Times(Quotient(total, unit), unit) + Remainder(total, unit)
  {
    if total >= unit {
      QuotientParts(total - unit, unit);
    }
  }

  /** An overfull slot before a free one makes the prediction too long: the break starts earlier. */
  lemma OverfullSlotStartsEarly(s: Scheduler, pick: nat)
    requires s.Valid() && s.state == Ready(Active) && !Predictable(s)
    ensures exists elapsed: nat :: elapsed < UpcomingBreak(s).value.startsAfter && !PredictsFor(s, elapsed, pick)
  {
    var unit := s.schedule.afterActive;
    var gap := NextSlot(s) - s.slot;
    assert Times(gap, unit) == Times(gap - 1, unit) + unit;
    assert Times(gap - 1, unit) == Times(gap - 2, unit) + unit;
    var elapsed := SaturatingSub(Times(gap, unit), s.activeElapsed);
    AdvanceStarts(s, elapsed, pick, s.activeElapsed + elapsed - Times(gap, unit));
    assert !PredictsFor(s, elapsed, pick);
  }

  /** The exact condition under which the prediction can be trusted. */
  lemma PredictionExactIff(s: Scheduler, pick: nat)
    requires s.Valid() && s.state == Ready(Active)
    ensures PredictsExactly(s, pick) <==> Predictable(s)
  {
    if Predictable(s) {
      forall elapsed: nat ensures PredictsFor(s, elapsed, pick) {
        PredictionExact(s, elapsed, pick);
      }
    } else {
      OverfullSlotStartsEarly(s, pick);
    }
  }

  /** The active time in progress is less than a slot. */
  predicate Fits(s: Scheduler) { s.activeElapsed < s.schedule.afterActive }

  /** An incoming position is from a scheduler in that condition. */
  predicate OpFits(unit: nat, op: G.Op) {
    match op
    case JoinBreak(_, _, p, _) => p.activeElapsed < unit
    case ReplaceBreak(_, _, p, _) => p.activeElapsed < unit
    case Merge(p) => p.activeElapsed < unit
    case _ => true
  }

  /**
   * Over any run of scheduler operations, predictions stay exact as long as incoming positions fit:
   * nothing but a peer's position can make a slot overfull.
   */
  lemma {:induction false} RunStaysPredictable(s: Scheduler, ops: seq<G.Op>)
    requires s.Valid() && Fits(s)
    requires forall i | 0 <= i < |ops| :: OpFits(s.schedule.afterActive, ops[i])
    ensures Fits(G.Run(s, ops)) && Predictable(G.Run(s, ops))
    decreases |ops|
  {
    if ops != [] {
      StepStaysPredictable(s, ops[0]);
      RunStaysPredictable(G.Apply(s, ops[0]), ops[1..]);
    }
  }

  lemma StepStaysPredictable(s: Scheduler, op: G.Op)
    requires s.Valid() && Fits(s) && OpFits(s.schedule.afterActive, op)
    ensures Fits(G.Apply(s, op))
  {
  }

  lemma ReachedSplit(s: Scheduler, first: nat, second: nat)
    requires s.schedule.afterActive > 0
    ensures var filled := ReachedSlot(s, first) - s.slot;
      var rest := Remainder(s.activeElapsed + first, s.schedule.afterActive);
      && ReachedSlot(s, first + second) == s.slot + filled + Quotient(rest + second, s.schedule.afterActive)
      && Remainder(s.activeElapsed + (first + second), s.schedule.afterActive)
         == Remainder(rest + second, s.schedule.afterActive)
  {
    var unit := s.schedule.afterActive;
    var total := s.activeElapsed + first;
    QuotientParts(total, unit);
    QuotientOf(Quotient(total, unit), unit, Remainder(total, unit) + second);
    assert Times(Quotient(total, unit), unit) + (Remainder(total, unit) + second)
        == s.activeElapsed + (first + second);
  }

  /** Filling slots before the next due one does not change which one that is. */
  lemma PassingKeepsNext(s: Scheduler, elapsed: nat, pick: nat)
    requires s.Valid() && s.state == Ready(Active) && ReachedSlot(s, elapsed) < NextSlot(s)
    ensures NextSlot(AdvanceActive(s, elapsed, pick).after) == NextSlot(s)
  {
    NextDueStable(s.Rules(), s.last, s.slot, ReachedSlot(s, elapsed));
  }

  /** The state after time that only fills slots, and what further time reaches from there. */
  lemma PassingState(s: Scheduler, first: nat, second: nat, pick: nat)
    requires s.Valid() && s.state == Ready(Active) && ReachedSlot(s, first) < NextSlot(s)
    ensures var mid := AdvanceActive(s, first, pick).after;
      && mid == s.(slot := ReachedSlot(s, first),
                   activeElapsed := Remainder(s.activeElapsed + first, s.schedule.afterActive))
      && ReachedSlot(mid, second) == ReachedSlot(s, first + second)
      && Remainder(mid.activeElapsed + second, s.schedule.afterActive)
         == Remainder(s.activeElapsed + (first + second), s.schedule.afterActive)
  {
    ReachedSplit(s, first, second);
  }

  lemma PassingSplit(s: Scheduler, first: nat, second: nat, pick: nat)
    requires s.Valid() && s.state == Ready(Active) && ReachedSlot(s, first) < NextSlot(s)
    ensures AdvanceActive(s, first + second, pick) == AdvanceActive(AdvanceActive(s, first, pick).after, second, pick)
  {
    PassingKeepsNext(s, first, pick);
    PassingState(s, first, second, pick);
    var mid := AdvanceActive(s, first, pick).after;
    assert NextRule(mid) == NextRule(s);
  }

  /** Feeding time twice is feeding the sum, up to the first break. */
  lemma AdvanceSplit(s: Scheduler, first: nat, second: nat, pick: nat)
    requires s.Valid()
    ensures AdvanceActive(s, first + second, pick)
         == if AdvanceActive(s, first, pick).started.Some? then AdvanceActive(s, first, pick)
            else AdvanceActive(AdvanceActive(s, first, pick).after, second, pick)
  {
    if s.state == Ready(Active) {
      if ReachedSlot(s, first) < NextSlot(s) {
        PassingSplit(s, first, second, pick);
      } else {
        ReachedSplit(s, first, second);
      }
    }
  }

  /** Feeds portions one after the other and stops at the first break. */
  function AdvanceEach(s: Scheduler, portions: seq<nat>, pick: nat): (o: Outcome)
    requires s.Valid()
    ensures o.after.Valid()
    decreases |portions|
  {
    if portions == [] then Outcome(s, None)
    else
      var o := AdvanceActive(s, portions[0], pick);
      if o.started.Some? then o else AdvanceEach(o.after, portions[1..], pick)
  }

  lemma SumOfTail(portions: seq<nat>)
    requires portions != []
    ensures Sum(portions) == portions[0] + Sum(portions[1..])
    ensures portions[1..] == [] ==> Sum(portions) == portions[0]
  {
  }

  /** How active time is cut into polling portions does not matter. */
  lemma {:induction false} PollingGranularity(s: Scheduler, portions: seq<nat>, pick: nat)
    requires s.Valid() && portions != []
    ensures AdvanceEach(s, portions, pick) == AdvanceActive(s, Sum(portions), pick)
    decreases |portions|
  {
    SumOfTail(portions);
    if portions[1..] != [] {
      AdvanceSplit(s, portions[0], Sum(portions[1..]), pick);
      var o := AdvanceActive(s, portions[0], pick);
      if o.started.None? { PollingGranularity(o.after, portions[1..], pick); }
    }
  }

  /**
   * After a break there is at least one whole slot of active time before the next scheduled one,
   * and it comes exactly when the slots up to the next due one are filled.
   */
  lemma WholeSlotAfterBreak(s: Scheduler, elapsed: nat, pick: nat)
    requires s.Valid() && s.state == Pending(Active)
    ensures var wait := Times(NextSlot(s) - s.slot, s.schedule.afterActive);
      && s.schedule.afterActive <= wait
      && (AdvanceActive(FinishBreak(s), elapsed, pick).started.Some? <==> wait <= elapsed)
  {
    PredictionExact(FinishBreak(s), elapsed, pick);
    var unit := s.schedule.afterActive;
    var gap := NextSlot(s) - s.slot;
    assert Times(gap, unit) == Times(gap - 1, unit) + unit;
  }

  /** The same when breaks are enabled again after having been disabled. */
  lemma WholeSlotAfterDisable(s: Scheduler, elapsed: nat, pick: nat)
    requires s.Valid()
    ensures var wait := Times(NextSlot(s) - s.slot, s.schedule.afterActive);
      && s.schedule.afterActive <= wait
      && (AdvanceActive(Enable(Disable(s)), elapsed, pick).started.Some? <==> wait <= elapsed)
  {
    PredictionExact(Enable(Disable(s)), elapsed, pick);
    var unit := s.schedule.afterActive;
    var gap := NextSlot(s) - s.slot;
    assert Times(gap, unit) == Times(gap - 1, unit) + unit;
  }
}
