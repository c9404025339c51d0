/** The scheduler object: each method changes the fields the way `SchedulerModel` says. */
module SchedulerObject {
  import opened Base
  import opened Schedules
  import M = SchedulerModel

  class BreakScheduler {
    const schedule: Schedule
    var activeElapsed: nat
    var slot: nat
    var lastSatisfiedSlots: map<string, nat>
    var state: M.State

    function View(): M.Scheduler
      reads this
    {
      M.Scheduler(schedule, activeElapsed, slot, lastSatisfiedSlots, state)
    }

    predicate Valid()
      reads this
    {
      View().Valid()
    }

    constructor (schedule: Schedule)
      requires ValidSchedule(schedule)
      ensures Valid() && View() == M.New(schedule)
    {
      this.schedule := schedule;
      activeElapsed := 0;
      slot := 0;
      lastSatisfiedSlots := map n | n in RuleNames(schedule.rules) :: 0;
      state := M.Ready(M.Active);
    }

    /** The wait is accumulated slot by slot; it equals the closed form of the specification. */
    method UpcomingScheduledBreak() returns (upcoming: Option<M.Upcoming>)
      requires Valid()
      ensures upcoming == M.UpcomingBreak(View())
    {
      if state != M.Ready(M.Active) { return None; }
      var nextSlot := M.NextSlot(View());
      var startsAfter := SaturatingSub(schedule.afterActive, activeElapsed);
      ghost var base := startsAfter;
      for passed := slot + 1 to nextSlot
        invariant startsAfter == base + Times(passed - slot - 1, schedule.afterActive)
      {
        startsAfter := startsAfter + schedule.afterActive;
      }
      return Some(M.Upcoming(M.NextRule(View()), nextSlot, startsAfter));
    }

    /**
     * Consumes active time slot by slot and stops at the first due one. The loop ends because
     * the time that fills a slot is positive.
     */
    method AdvanceActive(elapsed: nat, pick: nat) returns (started: Option<ScheduledBreak>)
      requires Valid()
      modifies this
      ensures M.Outcome(View(), started) == M.AdvanceActive(old(View()), elapsed, pick)
      ensures Valid()
    {
      if state != M.Ready(M.Active) { return None; }
      ghost var before := View();
      ghost var unit := schedule.afterActive;
      ghost var filled: nat := 0;
      activeElapsed := activeElapsed + elapsed;
      while activeElapsed >= schedule.afterActive
        invariant View() == before.(slot := before.slot + filled, activeElapsed := activeElapsed)
        invariant before.slot + filled < M.NextSlot(before)
        invariant Times(filled, unit) + activeElapsed == before.activeElapsed + elapsed
        decreases activeElapsed
      {
        assert Times(filled + 1, unit) == Times(filled, unit) + unit;
        activeElapsed := activeElapsed - schedule.afterActive;
        slot := slot + 1;
        filled := filled + 1;
        M.StartDueWhenReached(before, elapsed, pick, filled, activeElapsed);
        started := StartDue(pick);
        if started.Some? { return; }
      }
      M.AdvancePasses(before, elapsed, pick, filled, activeElapsed);
      return None;
    }

    method StartDue(pick: nat) returns (started: Option<ScheduledBreak>)
      requires Valid()
      modifies this
      ensures M.Outcome(View(), started) == M.StartDue(old(View()), pick)
    {
      var due := DueRule(schedule.rules, lastSatisfiedSlots, slot);
      if due.None? { return None; }
      SatisfyScheduledBreaks(slot, due.value.name);
      activeElapsed := 0;
      state := M.Pending(M.Active);
      return Some(ToBreak(due.value, Scheduled(slot), pick));
    }

    method ResetActiveTime()
      modifies this`activeElapsed
      ensures View() == M.ResetActiveTime(old(View()))
    {
      activeElapsed := 0;
    }

    /** Goes back to the first slot, and reports whether anything was different before. */
    method ResetPosition() returns (changed: bool)
      requires Valid()
      modifies this
      ensures View() == M.ResetPosition(old(View())) && Valid()
      ensures changed <==> View() != old(View())
    {
      changed := slot != 0 || activeElapsed != 0 || exists n | n in lastSatisfiedSlots :: lastSatisfiedSlots[n] != 0;
      slot := 0;
      activeElapsed := 0;
      ZeroSatisfiedSlots();
      ghost var before := old(lastSatisfiedSlots);
      if exists n | n in before :: before[n] != 0 {
        ghost var n :| n in before && before[n] != 0;
        assert lastSatisfiedSlots[n] != before[n];
      } else {
        assert lastSatisfiedSlots == before;
      }
    }

    method ZeroSatisfiedSlots()
      modifies this`lastSatisfiedSlots
      ensures lastSatisfiedSlots == map n | n in old(lastSatisfiedSlots) :: 0
    {
      InsertAll(lastSatisfiedSlots.Keys, 0);
    }

    method StartManualBreak(name: string, pick: nat) returns (started: Option<ScheduledBreak>)
      requires Valid()
      modifies this
      ensures M.Outcome(View(), started) == M.StartManualBreak(old(View()), name, pick)
      ensures Valid()
    {
      if state.Pending? { return None; }
      var resume := state.mode;
      if !M.ManualBreakIsAvailable(View(), name) { return None; }
      var rule := FindRule(schedule.rules, name).value;
      started := Some(ToBreak(rule, Manual, pick));
      activeElapsed := 0;
      SatisfyManualBreaks(rule.interval);
      state := M.Pending(resume);
    }

    method StartActiveSyncedBreak(name: string, origin: Origin, pick: nat) returns (started: Option<ScheduledBreak>)
      requires Valid()
      modifies this
      ensures M.Outcome(View(), started) == M.StartActiveSyncedBreak(old(View()), name, origin, pick)
      ensures Valid()
    {
      started := M.BreakForOrigin(View(), name, origin, pick);
      if started.None? || state.Pending? { return None; }
      var resume := state.mode;
      var adopted := AdoptSyncedOrigin(name, origin);
      if !adopted { return None; }
      activeElapsed := 0;
      state := M.Pending(resume);
    }

    method ReplacementSyncedBreak(name: string, origin: Origin, pick: nat) returns (started: Option<ScheduledBreak>)
      requires Valid()
      modifies this
      ensures M.Outcome(View(), started) == M.ReplacementSyncedBreak(old(View()), name, origin, pick)
      ensures Valid()
    {
      started := M.BreakForOrigin(View(), name, origin, pick);
      if started.None? { return None; }
      var adopted := AdoptSyncedOrigin(name, origin);
      if !adopted { return None; }
    }

    method AdoptSyncedOrigin(name: string, origin: Origin) returns (adopted: bool)
      requires Valid()
      modifies this
      ensures Valid()
      ensures adopted <==> M.AdoptSyncedOrigin(old(View()), name, origin).Some?
      ensures adopted ==> Some(View()) == M.AdoptSyncedOrigin(old(View()), name, origin)
      ensures !adopted ==> View() == old(View())
    {
      match origin
      case Manual =>
        var rule := FindRule(schedule.rules, name);
        if rule.None? { return false; }
        SatisfyManualBreaks(rule.value.interval);
        return true;
      case Scheduled(target) =>
        if target < slot { return false; }
        slot := target;
        activeElapsed := 0;
        SatisfyScheduledBreaks(target, name);
        return true;
    }

    /** Returns true exactly when the merge moved the scheduler. */
    method MergeSyncedPosition(p: Position) returns (changed: bool)
      requires Valid()
      modifies this
      ensures View() == M.MergeSyncedPosition(old(View()), p) && Valid()
      ensures changed <==> View() != old(View())
    {
      changed := false;
      if p.slot > slot {
        slot := p.slot;
        activeElapsed := p.activeElapsed;
        changed := true;
      }
      if p.slot == slot && p.activeElapsed > activeElapsed {
        activeElapsed := p.activeElapsed;
        changed := true;
      }
      var satisfied := MergeSatisfiedSlots(p.last);
      changed := changed || satisfied;
    }

    method MergeSatisfiedSlots(incoming: map<string, nat>) returns (changed: bool)
      requires Covers(schedule.rules, lastSatisfiedSlots)
      modifies this`lastSatisfiedSlots
      ensures lastSatisfiedSlots == M.MergedLast(schedule.rules, old(lastSatisfiedSlots), incoming, slot)
      ensures changed <==> lastSatisfiedSlots != old(lastSatisfiedSlots)
    {
      changed := false;
      ghost var before := lastSatisfiedSlots;
      ghost var done: set<string> := {};
      for i := 0 to |schedule.rules|
        invariant forall j | 0 <= j < i :: schedule.rules[j].name in done
        invariant lastSatisfiedSlots.Keys == before.Keys
        invariant forall n | n in before :: (lastSatisfiedSlots[n]
          == if n in incoming && n in done then Max(before[n], Min(incoming[n], slot)) else before[n])
        invariant changed <==> lastSatisfiedSlots != before
      {
        var name := schedule.rules[i].name;
        done := done + {name};
        if name in incoming && name in lastSatisfiedSlots {
          var capped := Min(incoming[name], slot);
          if capped > lastSatisfiedSlots[name] {
            lastSatisfiedSlots := lastSatisfiedSlots[name := capped];
            changed := true;
            assert lastSatisfiedSlots[name] > before[name];
          }
        }
      }
      forall n | n in RuleNames(schedule.rules) ensures n in done {
        var r := FindRule(schedule.rules, n).value;
        var j :| 0 <= j < |schedule.rules| && schedule.rules[j] == r;
        assert schedule.rules[j].name in done;
      }
    }

    /** Ends the pending break, if there is one. */
    method FinishBreak() returns (wasPending: bool)
      modifies this
      ensures View() == M.FinishBreak(old(View())) && wasPending == old(state).Pending?
    {
      var previous := state;
      state := M.Ready(M.Active);
      activeElapsed := 0;
      match previous
      case Pending(resume) => state := M.Ready(resume); return true;
      case Ready(mode) =>
        if mode == M.Disabled { state := M.Ready(M.Disabled); }
        return false;
    }

    method Disable() returns (wasPending: bool)
      modifies this
      ensures View() == M.Disable(old(View())) && wasPending == old(state).Pending?
    {
      wasPending := state.Pending?;
      state := M.Ready(M.Disabled);
      activeElapsed := 0;
    }

    method Enable()
      modifies this`state
      ensures View() == M.Enable(old(View()))
    {
      state := if state.Ready? then M.Ready(M.Active) else M.Pending(M.Active);
    }

    method SatisfyScheduledBreaks(at: nat, selectedName: string)
      requires ValidRules(schedule.rules) && Covers(schedule.rules, lastSatisfiedSlots)
      modifies this`lastSatisfiedSlots
      ensures lastSatisfiedSlots == SatisfyScheduled(schedule.rules, old(lastSatisfiedSlots), at, selectedName)
    {
      var found := FindRule(schedule.rules, selectedName);
      if found.None? { return; }
      var names := M.SupersededNames(schedule.rules, lastSatisfiedSlots, at, found.value);
      InsertAll(names, at);
    }

    method SatisfyManualBreaks(interval: nat)
      requires ValidRules(schedule.rules) && Covers(schedule.rules, lastSatisfiedSlots)
      modifies this`lastSatisfiedSlots
      ensures lastSatisfiedSlots == SatisfyManual(schedule.rules, old(lastSatisfiedSlots), slot, interval)
    {
      var names := M.FrequentNames(schedule.rules, interval);
      InsertAll(names, slot);
    }

    method InsertAll(names: set<string>, at: nat)
      requires names <= lastSatisfiedSlots.Keys
      modifies this`lastSatisfiedSlots
      ensures lastSatisfiedSlots.Keys == old(lastSatisfiedSlots.Keys)
      ensures forall n | n in lastSatisfiedSlots ::
        lastSatisfiedSlots[n] == if n in names then at else old(lastSatisfiedSlots)[n]
    {
      var left := names;
      while left != {}
        invariant left <= names
        invariant lastSatisfiedSlots.Keys == old(lastSatisfiedSlots.Keys)
        invariant forall n | n in lastSatisfiedSlots ::
          lastSatisfiedSlots[n] == if n in names - left then at else old(lastSatisfiedSlots)[n]
        decreases left
      {
        var n :| n in left;
        lastSatisfiedSlots := lastSatisfiedSlots[n := at];
        left := left - {n};
      }
    }
  }
}
