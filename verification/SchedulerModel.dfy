/** The break scheduler as a value, and what each of its operations does to it. */
module SchedulerModel {
  import opened Base
  import opened Schedules

  datatype Mode = Active | Disabled

  datatype State = Ready(mode: Mode) | Pending(resume: Mode)

  datatype Scheduler = Scheduler(
    schedule: Schedule,
    activeElapsed: nat,
    slot: nat,
    last: map<string, nat>,
    state: State)
  {
    function Rules(): seq<Rule> { schedule.rules }

    /** The mode now, or the one a pending break returns to. */
    function Mode(): Mode { if state.Ready? then state.mode else state.resume }

    predicate Valid() { ValidSchedule(schedule) && Covers(schedule.rules, last) }
  }

  datatype Upcoming = Upcoming(rule: Rule, slot: nat, startsAfter: nat)

  datatype Outcome = Outcome(after: Scheduler, started: Option<ScheduledBreak>)

  function New(schedule: Schedule): (s: Scheduler)
    requires ValidSchedule(schedule)
    ensures s.Valid()
  {
    Scheduler(schedule, 0, 0, map n | n in RuleNames(schedule.rules) :: 0, Ready(Active))
  }

  function PositionOf(s: Scheduler): Position { Position(s.slot, s.activeElapsed, s.last) }

  function NextSlot(s: Scheduler): nat
    requires s.Valid()
  {
    NextDue(s.Rules(), s.last, s.slot)
  }

  function NextRule(s: Scheduler): (r: Rule)
    requires s.Valid()
    ensures r in s.Rules()
  {
    DueFromNextDue(s.Rules(), s.last, s.slot, NextSlot(s));
    DueRule(s.Rules(), s.last, NextSlot(s)).value
  }

  /** The next scheduled break and the active time left before it, while scheduling is running. */
  function UpcomingBreak(s: Scheduler): Option<Upcoming>
    requires s.Valid()
  {
    if s.state != Ready(Active) then None
    else
      var wait := SaturatingSub(s.schedule.afterActive, s.activeElapsed)
                + Times(NextSlot(s) - s.slot - 1, s.schedule.afterActive);
      Some(Upcoming(NextRule(s), NextSlot(s), wait))
  }

  function ManualBreakAvailability(s: Scheduler): map<string, bool>
    requires s.Valid()
  {
    var upcoming := UpcomingBreak(s);
    map n | n in RuleNames(s.Rules()) ::
      upcoming.None? || FindRule(s.Rules(), n).value.interval >= upcoming.value.rule.interval
  }

  predicate ManualBreakIsAvailable(s: Scheduler, name: string)
    requires s.Valid()
  {
    match FindRule(s.Rules(), name)
    case None => false
    case Some(rule) =>
      var upcoming := UpcomingBreak(s);
      upcoming.None? || rule.interval >= upcoming.value.rule.interval
  }

  /** The rules a scheduled break satisfies, collected by walking over them. */
  function SupersededNames(rules: seq<Rule>, last: map<string, nat>, slot: nat, selected: Rule): (names: set<string>)
    requires WellOrdered(rules)
    ensures names <= RuleNames(rules)
    ensures forall n | n in RuleNames(rules) :: n in names <==> Superseded(rules, last, slot, selected, n)
  {
    AllRuleFacts(rules);
    set r | r in rules && r.interval <= selected.interval && DueAt(last, r, slot) :: r.name
  }

  function FrequentNames(rules: seq<Rule>, interval: nat): (names: set<string>)
    requires WellOrdered(rules)
    ensures names <= RuleNames(rules)
    ensures forall n | n in RuleNames(rules) :: n in names <==> FindRule(rules, n).value.interval <= interval
  {
    AllRuleFacts(rules);
    set r | r in rules && r.interval <= interval :: r.name
  }

  /** A break becomes pending at a slot. */
  function BeginScheduled(s: Scheduler, slot: nat, rule: Rule): Scheduler {
    s.(slot := slot,
       activeElapsed := 0,
       last := SatisfyScheduled(s.Rules(), s.last, slot, rule.name),
       state := Pending(Active))
  }

  function ReachedSlot(s: Scheduler, elapsed: nat): nat
    requires s.schedule.afterActive > 0
  {
    s.slot + Quotient(s.activeElapsed + elapsed, s.schedule.afterActive)
  }

  /**
   * Active time in closed form: it fills slots of `afterActive` each, and the first due slot
   * that is reached starts its break and discards the rest.
   */
  function AdvanceActive(s: Scheduler, elapsed: nat, pick: nat): (o: Outcome)
    requires s.Valid()
    ensures o.after.Valid()
  {
    if s.state != Ready(Active) then Outcome(s, None)
    else
      if ReachedSlot(s, elapsed) >= NextSlot(s) then
        Outcome(BeginScheduled(s, NextSlot(s), NextRule(s)),
                Some(ToBreak(NextRule(s), Origin.Scheduled(NextSlot(s)), pick)))
      else
        Outcome(s.(slot := ReachedSlot(s, elapsed),
                   activeElapsed := Remainder(s.activeElapsed + elapsed, s.schedule.afterActive)), None)
  }

  /** Enough time to reach the next due slot starts its break. */
  lemma AdvanceStarts(s: Scheduler, elapsed: nat, pick: nat, rest: nat)
    requires s.Valid() && s.state == Ready(Active)
    requires s.activeElapsed + elapsed == Times(NextSlot(s) - s.slot, s.schedule.afterActive) + rest
    ensures AdvanceActive(s, elapsed, pick)
         == Outcome(BeginScheduled(s, NextSlot(s), NextRule(s)),
                    Some(ToBreak(NextRule(s), Origin.Scheduled(NextSlot(s)), pick)))
  {
    assert ReachedSlot(s, elapsed) >= NextSlot(s) by { Reaches(s, elapsed, NextSlot(s) - s.slot, rest); }
  }

  /** Less time only fills slots before the next due one. */
  lemma AdvancePasses(s: Scheduler, elapsed: nat, pick: nat, filled: nat, rest: nat)
    requires s.Valid() && s.state == Ready(Active)
    requires s.activeElapsed + elapsed == Times(filled, s.schedule.afterActive) + rest
    requires rest < s.schedule.afterActive && s.slot + filled < NextSlot(s)
    ensures AdvanceActive(s, elapsed, pick) == Outcome(s.(slot := s.slot + filled, activeElapsed := rest), None)
  {
    Reaches(s, elapsed, filled, rest);
  }

  lemma Reaches(s: Scheduler, elapsed: nat, filled: nat, rest: nat)
    requires s.schedule.afterActive > 0
    requires s.activeElapsed + elapsed == Times(filled, s.schedule.afterActive) + rest
    ensures ReachedSlot(s, elapsed) >= s.slot + filled
    ensures rest < s.schedule.afterActive ==>
      ReachedSlot(s, elapsed) == s.slot + filled
      && Remainder(s.activeElapsed + elapsed, s.schedule.afterActive) == rest
  {
    QuotientOf(filled, s.schedule.afterActive, rest);
  }

  /** The break that is due at the slot just reached, if any, becomes pending. */
  function StartDue(s: Scheduler, pick: nat): Outcome {
    var due := DueRule(s.Rules(), s.last, s.slot);
    if due.None? then Outcome(s, None)
    else Outcome(BeginScheduled(s, s.slot, due.value), Some(ToBreak(due.value, Origin.Scheduled(s.slot), pick)))
  }

  /** One slot at a time: nothing is due before the next due slot, and there the whole advance is done. */
  lemma StartDueWhenReached(s: Scheduler, elapsed: nat, pick: nat, filled: nat, rest: nat)
    requires s.Valid() && s.state == Ready(Active) && 0 < filled && s.slot + filled <= NextSlot(s)
    requires s.activeElapsed + elapsed == Times(filled, s.schedule.afterActive) + rest
    ensures var now := s.(slot := s.slot + filled, activeElapsed := rest);
            && now.Valid()
            && if now.slot == NextSlot(s) then
                 StartDue(now, pick).started.Some? && StartDue(now, pick) == AdvanceActive(s, elapsed, pick)
               else
                 StartDue(now, pick) == Outcome(now, None)
  {
    DueFromNextDue(s.Rules(), s.last, s.slot, s.slot + filled);
    if s.slot + filled == NextSlot(s) {
      AdvanceStarts(s, elapsed, pick, rest);
    }
  }

  function ResetActiveTime(s: Scheduler): (after: Scheduler)
    ensures s.Valid() ==> after.Valid()
  {
    s.(activeElapsed := 0)
  }

  function ResetPosition(s: Scheduler): (after: Scheduler)
    ensures s.Valid() ==> after.Valid()
  {
    s.(slot := 0, activeElapsed := 0, last := map n | n in s.last :: 0)
  }

  function StartManualBreak(s: Scheduler, name: string, pick: nat): (o: Outcome)
    requires s.Valid()
    ensures o.after.Valid()
  {
    if s.state.Pending? || !ManualBreakIsAvailable(s, name) then Outcome(s, None)
    else
      var rule := FindRule(s.Rules(), name).value;
      Outcome(
        s.(activeElapsed := 0,
           last := SatisfyManual(s.Rules(), s.last, s.slot, rule.interval),
           state := Pending(s.state.mode)),
        Some(ToBreak(rule, Manual, pick)))
  }

  predicate HasBreak(s: Scheduler, name: string) { FindRule(s.Rules(), name).Some? }

  function BreakForOrigin(s: Scheduler, name: string, origin: Origin, pick: nat): Option<ScheduledBreak> {
    match FindRule(s.Rules(), name)
    case None => None
    case Some(rule) => if origin == Origin.Scheduled(0) then None else Some(ToBreak(rule, origin, pick))
  }

  /** Takes over the cadence effects of a peer's break; refused for a slot already passed. */
  function AdoptSyncedOrigin(s: Scheduler, name: string, origin: Origin): (adopted: Option<Scheduler>)
    ensures s.Valid() && adopted.Some? ==> adopted.value.Valid()
  {
    match origin
    case Manual =>
      (match FindRule(s.Rules(), name)
       case None => None
       case Some(rule) => Some(s.(last := SatisfyManual(s.Rules(), s.last, s.slot, rule.interval))))
    case Scheduled(slot) =>
      if slot < s.slot then None
      else Some(s.(slot := slot, activeElapsed := 0, last := SatisfyScheduled(s.Rules(), s.last, slot, name)))
  }

  /** Joins a peer's break that is already running. */
  function StartActiveSyncedBreak(s: Scheduler, name: string, origin: Origin, pick: nat): (o: Outcome)
    ensures s.Valid() ==> o.after.Valid()
  {
    var scheduledBreak := BreakForOrigin(s, name, origin, pick);
    var adopted := AdoptSyncedOrigin(s, name, origin);
    if scheduledBreak.None? || s.state.Pending? || adopted.None? then Outcome(s, None)
    else Outcome(adopted.value.(activeElapsed := 0, state := Pending(s.state.mode)), scheduledBreak)
  }

  /** Takes over a peer's break in place of the one already pending. */
  function ReplacementSyncedBreak(s: Scheduler, name: string, origin: Origin, pick: nat): (o: Outcome)
    ensures s.Valid() ==> o.after.Valid()
  {
    var scheduledBreak := BreakForOrigin(s, name, origin, pick);
    var adopted := AdoptSyncedOrigin(s, name, origin);
    if scheduledBreak.None? || adopted.None? then Outcome(s, None)
    else Outcome(adopted.value, scheduledBreak)
  }

  function MergedElapsed(s: Scheduler, p: Position): nat {
    if p.slot > s.slot then p.activeElapsed
    else if p.slot == s.slot then Max(s.activeElapsed, p.activeElapsed)
    else s.activeElapsed
  }

  /** Satisfied slots grow to the incoming ones, which count at most up to the slot itself. */
  function MergedLast(rules: seq<Rule>, last: map<string, nat>, incoming: map<string, nat>, slot: nat): map<string, nat> {
    map n | n in last ::
      if n in incoming && n in RuleNames(rules) then Max(last[n], Min(incoming[n], slot)) else last[n]
  }

  /** A peer's position moves the local one forward only; satisfied slots are capped at the slot. */
  function MergeSyncedPosition(s: Scheduler, p: Position): (after: Scheduler)
    ensures s.Valid() ==> after.Valid()
  {
    var slot := Max(s.slot, p.slot);
    s.(slot := slot, activeElapsed := MergedElapsed(s, p), last := MergedLast(s.Rules(), s.last, p.last, slot))
  }

  function FinishBreak(s: Scheduler): (after: Scheduler)
    ensures s.Valid() ==> after.Valid()
  {
    s.(activeElapsed := 0, state := Ready(s.Mode()))
  }

  function Disable(s: Scheduler): (after: Scheduler)
    ensures s.Valid() ==> after.Valid()
  {
    s.(activeElapsed := 0, state := Ready(Disabled))
  }

  function Enable(s: Scheduler): (after: Scheduler)
    ensures s.Valid() ==> after.Valid()
  {
    s.(state := if s.state.Ready? then Ready(Active) else Pending(Active))
  }
}
