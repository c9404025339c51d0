/** Break rules, due slots, and the position bookkeeping of the scheduler, as pure functions. */
module Schedules {
  import opened Base
  import opened Names

  datatype Rule = Rule(name: string, interval: nat, duration: nat, messages: seq<string>, autolock: bool)

  datatype Schedule = Schedule(
    afterActive: nat,
    resetAfterIdle: Option<nat>,
    resetCountAfterIdle: Option<nat>,
    rules: seq<Rule>)

  datatype Origin = Scheduled(slot: nat) | Manual

  datatype ScheduledBreak = ScheduledBreak(
    name: string, origin: Origin, duration: nat, message: string, autolock: bool)

  datatype Position = Position(slot: nat, activeElapsed: nat, last: map<string, nat>)

  predicate ValidRule(r: Rule) { r.interval > 0 && r.duration > 0 && ValidName(r.name) }

  /**
   * What configuration validation guarantees about the rules: each is valid, the longest interval
   * comes first, and no name is used twice.
   */
  predicate WellOrdered(rules: seq<Rule>) {
    rules == [] ||
    (&& ValidRule(rules[0])
     && (|rules| > 1 ==> rules[1].interval < rules[0].interval)
     && FindRule(rules[1..], rules[0].name).None?
     && WellOrdered(rules[1..]))
  }

  predicate ValidRules(rules: seq<Rule>) { rules != [] && WellOrdered(rules) }

  predicate ValidSchedule(schedule: Schedule) {
    schedule.afterActive > 0 && ValidRules(schedule.rules)
  }

  function RuleNames(rules: seq<Rule>): set<string> {
    if rules == [] then {} else {rules[0].name} + RuleNames(rules[1..])
  }

  /** Every rule has a last-satisfied slot and nothing else does. */
  predicate Covers(rules: seq<Rule>, last: map<string, nat>) { last.Keys == RuleNames(rules) }

  function FindRule(rules: seq<Rule>, name: string): (r: Option<Rule>)
    ensures r.Some? ==> r.value in rules && r.value.name == name
    ensures r.Some? <==> name in RuleNames(rules)
  {
    if rules == [] then None
    else if rules[0].name == name then Some(rules[0])
    else FindRule(rules[1..], name)
  }

  /** A rule of a well-ordered list is valid, is found by its name, and is no longer than the first. */
  lemma {:induction false} RuleFacts(rules: seq<Rule>, r: Rule)
    requires WellOrdered(rules) && r in rules
    ensures ValidRule(r) && r.interval <= rules[0].interval
    ensures FindRule(rules, r.name) == Some(r) && r.name in RuleNames(rules)
  {
    if r != rules[0] {
      assert r in rules[1..];
      RuleFacts(rules[1..], r);
    }
  }

  lemma AllRuleFacts(rules: seq<Rule>)
    requires WellOrdered(rules)
    ensures forall r | r in rules ::
      ValidRule(r) && FindRule(rules, r.name) == Some(r) && r.name in RuleNames(rules)
  {
    forall r | r in rules
      ensures ValidRule(r) && FindRule(rules, r.name) == Some(r) && r.name in RuleNames(rules)
    {
      RuleFacts(rules, r);
    }
  }

  const DEFAULT_BREAK_MESSAGE := "Take a break"

  /** The message shown for a break; `pick` stands for the value the system random source gave. */
  function MessageAt(rule: Rule, pick: nat): string {
    if |rule.messages| == 0 then DEFAULT_BREAK_MESSAGE else rule.messages[Remainder(pick, |rule.messages|)]
  }

  function ToBreak(rule: Rule, origin: Origin, pick: nat): ScheduledBreak {
    ScheduledBreak(rule.name, origin, rule.duration, MessageAt(rule, pick), rule.autolock)
  }

  function LastOf(last: map<string, nat>, r: Rule): nat {
    if r.name in last then last[r.name] else 0
  }

  predicate DueAt(last: map<string, nat>, r: Rule, slot: nat) {
    SaturatingSub(slot, LastOf(last, r)) >= r.interval
  }

  /** The break type chosen at a slot: the first due rule, which has the largest due interval. */
  function DueRule(rules: seq<Rule>, last: map<string, nat>, slot: nat): (due: Option<Rule>)
    ensures due.Some? ==> due.value in rules && DueAt(last, due.value, slot)
  {
    if rules == [] then None
    else if DueAt(last, rules[0], slot) then Some(rules[0])
    else DueRule(rules[1..], last, slot)
  }

  lemma {:induction false} DueRuleIsLongest(rules: seq<Rule>, last: map<string, nat>, slot: nat, r: Rule)
    requires WellOrdered(rules)
    requires r in rules && DueAt(last, r, slot)
    ensures DueRule(rules, last, slot).Some?
    ensures r.interval <= DueRule(rules, last, slot).value.interval
  {
    RuleFacts(rules, r);
    if !DueAt(last, rules[0], slot) {
      DueRuleIsLongest(rules[1..], last, slot, r);
    }
  }

  /** The first slot after `slot` at which this rule may fire. */
  function NextDueFor(last: map<string, nat>, r: Rule, slot: nat): nat {
    Max(slot + 1, LastOf(last, r) + r.interval)
  }

  function NextDue(rules: seq<Rule>, last: map<string, nat>, slot: nat): (next: nat)
    requires rules != []
    ensures next > slot
  {
    if |rules| == 1 then NextDueFor(last, rules[0], slot)
    else Min(NextDueFor(last, rules[0], slot), NextDue(rules[1..], last, slot))
  }

  lemma {:induction false} NextDueAtMost(rules: seq<Rule>, last: map<string, nat>, slot: nat, r: Rule)
    requires r in rules
    ensures NextDue(rules, last, slot) <= NextDueFor(last, r, slot)
  {
    if r != rules[0] {
      assert r in rules[1..];
      NextDueAtMost(rules[1..], last, slot, r);
    }
  }

  lemma {:induction false} NextDueAttained(rules: seq<Rule>, last: map<string, nat>, slot: nat) returns (r: Rule)
    requires rules != []
    ensures r in rules && NextDue(rules, last, slot) == NextDueFor(last, r, slot)
  {
    r := rules[0];
    if NextDue(rules, last, slot) != NextDueFor(last, r, slot) {
      r := NextDueAttained(rules[1..], last, slot);
    }
  }

  /** A slot after the current one has a due rule exactly from the next due slot on. */
  lemma DueFromNextDue(rules: seq<Rule>, last: map<string, nat>, slot: nat, later: nat)
    requires ValidRules(rules) && slot < later
    ensures DueRule(rules, last, later).Some? <==> later >= NextDue(rules, last, slot)
  {
    if later >= NextDue(rules, last, slot) {
      var first := NextDueAttained(rules, last, slot);
      DueRuleIsLongest(rules, last, later, first);
    } else if DueRule(rules, last, later).Some? {
      var r := DueRule(rules, last, later).value;
      RuleFacts(rules, r);
      NextDueAtMost(rules, last, slot, r);
    }
  }

  /** The next due slot does not move while slots pass that are before it. */
  lemma NextDueStable(rules: seq<Rule>, last: map<string, nat>, slot: nat, later: nat)
    requires rules != []
    requires slot <= later < NextDue(rules, last, slot)
    ensures NextDue(rules, last, later) == NextDue(rules, last, slot)
  {
    var a := NextDueAttained(rules, last, slot);
    var b := NextDueAttained(rules, last, later);
    NextDueAtMost(rules, last, later, a);
    NextDueAtMost(rules, last, slot, b);
  }

  /** A scheduled break satisfies every due rule that it supersedes. */
  function SatisfyScheduled(rules: seq<Rule>, last: map<string, nat>, slot: nat, name: string): (after: map<string, nat>)
    ensures after.Keys == last.Keys
  {
    match FindRule(rules, name)
    case None => last
    case Some(selected) =>
      map n | n in last :: if Superseded(rules, last, slot, selected, n) then slot else last[n]
  }

  predicate Superseded(rules: seq<Rule>, last: map<string, nat>, slot: nat, selected: Rule, name: string) {
    match FindRule(rules, name)
    case None => false
    case Some(r) => r.interval <= selected.interval && DueAt(last, r, slot)
  }

  /** A manual break satisfies its own rule and every more frequent one. */
  function SatisfyManual(rules: seq<Rule>, last: map<string, nat>, slot: nat, interval: nat): (after: map<string, nat>)
    ensures after.Keys == last.Keys
  {
    map n | n in last ::
      if FindRule(rules, n).Some? && FindRule(rules, n).value.interval <= interval then slot else last[n]
  }

  lemma SatisfyScheduledAt(rules: seq<Rule>, last: map<string, nat>, slot: nat, selected: Rule, r: Rule)
    requires WellOrdered(rules) && Covers(rules, last) && selected in rules && r in rules
    ensures LastOf(SatisfyScheduled(rules, last, slot, selected.name), r)
         == if r.interval <= selected.interval && DueAt(last, r, slot) then slot else LastOf(last, r)
  {
    RuleFacts(rules, selected);
    RuleFacts(rules, r);
  }

  lemma SatisfyManualAt(rules: seq<Rule>, last: map<string, nat>, slot: nat, interval: nat, r: Rule)
    requires WellOrdered(rules) && Covers(rules, last) && r in rules
    ensures LastOf(SatisfyManual(rules, last, slot, interval), r)
         == if r.interval <= interval then slot else LastOf(last, r)
  {
    RuleFacts(rules, r);
  }

  /** Two position maps over the same rules are equal when they agree rule by rule. */
  lemma SameLast(rules: seq<Rule>, a: map<string, nat>, b: map<string, nat>)
    requires Covers(rules, a) && Covers(rules, b)
    requires forall r | r in rules :: LastOf(a, r) == LastOf(b, r)
    ensures a == b
  {
    forall n | n in a ensures a[n] == b[n] {
      var r := FindRule(rules, n).value;
      assert LastOf(a, r) == LastOf(b, r);
    }
  }
}
