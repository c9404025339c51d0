/** Validation of the break settings and the schedule built from them. */
module Config {
  import opened Base
  import opened Names
  import opened Schedules

  datatype BreakType = BreakType(interval: nat, duration: nat, messages: seq<string>, autolock: bool)

  /** One configured break type; `Breaks.types` lists them in key order, as an ordered map iterates. */
  datatype Entry = Entry(name: string, config: BreakType)

  datatype Breaks = Breaks(
    afterActive: nat,
    resetAfterIdle: Option<nat>,
    resetCountAfterIdle: Option<nat>,
    types: seq<Entry>)

  datatype ConfigError =
    | ZeroBreakAfterActiveDuration
    | ZeroBreakResetAfterIdleDuration
    | ZeroBreakResetCountAfterIdleDuration
    | EmptyBreakTypes
    | InvalidBreakTypeName(name: string)
    | ZeroBreakInterval(name: string)
    | ZeroBreakDuration(name: string)
    | EmptyBreakMessages(name: string)
    | EmptyBreakMessage(name: string, index: nat)
    | DuplicateBreakInterval(interval: nat, firstName: string, duplicateName: string)

  predicate DistinctKeys(types: seq<Entry>) {
    forall i, j | 0 <= i < j < |types| :: types[i].name != types[j].name
  }

  predicate WellFormedType(config: BreakType) {
    && config.interval > 0
    && config.duration > 0
    && config.messages != []
    && forall i | 0 <= i < |config.messages| :: Trim(config.messages[i]) != ""
  }

  predicate WellFormed(breaks: Breaks) {
    && breaks.afterActive > 0
    && breaks.resetAfterIdle != Some(0)
    && breaks.resetCountAfterIdle != Some(0)
    && breaks.types != []
    && (forall e | e in breaks.types :: ValidName(e.name) && WellFormedType(e.config))
    && DistinctIntervals(breaks.types)
  }

  predicate DistinctIntervals(types: seq<Entry>) {
    forall i, j | 0 <= i < j < |types| :: types[i].config.interval != types[j].config.interval
  }

  /** The fault an error reports is really present in the settings. */
  ghost predicate Reports(error: ConfigError, breaks: Breaks) {
    match error
    case ZeroBreakAfterActiveDuration => breaks.afterActive == 0
    case ZeroBreakResetAfterIdleDuration => breaks.resetAfterIdle == Some(0)
    case ZeroBreakResetCountAfterIdleDuration => breaks.resetCountAfterIdle == Some(0)
    case EmptyBreakTypes => breaks.types == []
    case InvalidBreakTypeName(name) => !ValidName(name) && exists e :: e in breaks.types && e.name == name
    case DuplicateBreakInterval(interval, first, second) =>
      exists i, j :: 0 <= i < j < |breaks.types|
        && breaks.types[i].name == first && breaks.types[j].name == second
        && breaks.types[i].config.interval == breaks.types[j].config.interval == interval
    case _ => exists e :: e in breaks.types && e.name == error.name && ReportsType(error, e.config)
  }

  predicate ReportsType(error: ConfigError, config: BreakType) {
    match error
    case ZeroBreakInterval(_) => config.interval == 0
    case ZeroBreakDuration(_) => config.duration == 0
    case EmptyBreakMessages(_) => config.messages == []
    case EmptyBreakMessage(_, index) => index < |config.messages| && Trim(config.messages[index]) == ""
    case _ => false
  }

  method ValidateType(name: string, config: BreakType) returns (r: Result<(), ConfigError>)
    ensures r.Ok? <==> WellFormedType(config)
    ensures r.Err? ==> ReportsType(r.error, config) && r.error.name == name
  {
    if config.interval == 0 { return Err(ZeroBreakInterval(name)); }
    if config.duration == 0 { return Err(ZeroBreakDuration(name)); }
    if |config.messages| == 0 { return Err(EmptyBreakMessages(name)); }
    for index := 0 to |config.messages|
      invariant forall i | 0 <= i < index :: Trim(config.messages[i]) != ""
    {
      if Trim(config.messages[index]) == "" { return Err(EmptyBreakMessage(name, index)); }
    }
    return Ok(());
  }

  lemma DuplicateReported(breaks: Breaks, i: nat, j: nat)
    requires i < j < |breaks.types|
    requires breaks.types[i].config.interval == breaks.types[j].config.interval
    ensures Reports(
      DuplicateBreakInterval(breaks.types[j].config.interval, breaks.types[i].name, breaks.types[j].name), breaks)
    ensures !WellFormed(breaks)
  {
  }

  lemma TypeFaultReported(breaks: Breaks, e: Entry, error: ConfigError)
    requires e in breaks.types && ReportsType(error, e.config) && error.name == e.name
    ensures Reports(error, breaks) && !WellFormed(breaks)
  {
  }

  predicate CheckedUpTo(types: seq<Entry>, k: nat)
    requires k <= |types|
  {
    forall i | 0 <= i < k :: ValidName(types[i].name) && WellFormedType(types[i].config)
  }

  /** The intervals seen so far, with the break type that has each; none was seen twice. */
  ghost predicate RecordedUpTo(types: seq<Entry>, k: nat, intervals: map<nat, string>)
    requires k <= |types|
  {
    && (forall i | 0 <= i < k ::
          types[i].config.interval in intervals && intervals[types[i].config.interval] == types[i].name)
    && (forall n | n in intervals :: exists i :: 0 <= i < k && types[i].config.interval == n)
    && (forall i, j | 0 <= i < j < k :: types[i].config.interval != types[j].config.interval)
  }

  lemma RecordNext(types: seq<Entry>, k: nat, intervals: map<nat, string>)
    requires k < |types| && RecordedUpTo(types, k, intervals) && types[k].config.interval !in intervals
    ensures RecordedUpTo(types, k + 1, intervals[types[k].config.interval := types[k].name])
  {
    var next := intervals[types[k].config.interval := types[k].name];
    forall n | n in next ensures exists i :: 0 <= i < k + 1 && types[i].config.interval == n {
      if n == types[k].config.interval {
        assert types[k].config.interval == n;
      } else {
        var i :| 0 <= i < k && types[i].config.interval == n;
      }
    }
  }

  lemma AllChecked(breaks: Breaks, intervals: map<nat, string>)
    requires breaks.afterActive > 0 && breaks.resetAfterIdle != Some(0) && breaks.resetCountAfterIdle != Some(0)
    requires breaks.types != []
    requires CheckedUpTo(breaks.types, |breaks.types|) && RecordedUpTo(breaks.types, |breaks.types|, intervals)
    ensures WellFormed(breaks)
  {
  }

  /** Accepts exactly the well-formed settings, and an error names a fault that is there. */
  method Validate(breaks: Breaks) returns (r: Result<(), ConfigError>)
    requires DistinctKeys(breaks.types)
    ensures r.Ok? <==> WellFormed(breaks)
    ensures r.Err? ==> Reports(r.error, breaks)
  {
    if breaks.afterActive == 0 { return Err(ZeroBreakAfterActiveDuration); }
    if breaks.resetAfterIdle == Some(0) { return Err(ZeroBreakResetAfterIdleDuration); }
    if breaks.resetCountAfterIdle == Some(0) { return Err(ZeroBreakResetCountAfterIdleDuration); }
    if |breaks.types| == 0 { return Err(EmptyBreakTypes); }

    var intervals: map<nat, string> := map[];
    for k := 0 to |breaks.types|
      invariant CheckedUpTo(breaks.types, k)
      invariant RecordedUpTo(breaks.types, k, intervals)
    {
      var entry := breaks.types[k];
      if !ValidName(entry.name) {
        assert entry in breaks.types;
        return Err(InvalidBreakTypeName(entry.name));
      }
      var checked := ValidateType(entry.name, entry.config);
      if checked.Err? {
        TypeFaultReported(breaks, entry, checked.error);
        return Err(checked.error);
      }
      if entry.config.interval in intervals {
        ghost var i :| 0 <= i < k && breaks.types[i].config.interval == entry.config.interval;
        DuplicateReported(breaks, i, k);
        return Err(DuplicateBreakInterval(entry.config.interval, intervals[entry.config.interval], entry.name));
      }
      RecordNext(breaks.types, k, intervals);
      intervals := intervals[entry.config.interval := entry.name];
    }
    AllChecked(breaks, intervals);
    return Ok(());
  }

  function FromConfig(e: Entry): Rule {
    Rule(e.name, e.config.interval, e.config.duration, e.config.messages, e.config.autolock)
  }

  function FromConfigs(types: seq<Entry>): (rules: seq<Rule>)
    ensures |rules| == |types| && forall i | 0 <= i < |types| :: rules[i] == FromConfig(types[i])
  {
    seq(|types|, i requires 0 <= i < |types| => FromConfig(types[i]))
  }

  predicate Sorted(rules: seq<Rule>) {
    forall i, j | 0 <= i < j < |rules| :: rules[i].interval >= rules[j].interval
  }

  function InsertByInterval(r: Rule, rules: seq<Rule>): (sorted: seq<Rule>)
    requires Sorted(rules)
    ensures Sorted(sorted) && multiset(sorted) == multiset(rules) + multiset{r}
  {
    if rules == [] || r.interval >= rules[0].interval then
      [r] + rules
    else
      var tail := InsertByInterval(r, rules[1..]);
      InsertKeepsOrder(r, rules, tail);
      [rules[0]] + tail
  }

  lemma InsertKeepsOrder(r: Rule, rules: seq<Rule>, tail: seq<Rule>)
    requires rules != [] && Sorted(rules) && Sorted(tail) && r.interval < rules[0].interval
    requires multiset(tail) == multiset(rules[1..]) + multiset{r}
    ensures Sorted([rules[0]] + tail)
    ensures multiset([rules[0]] + tail) == multiset(rules) + multiset{r}
  {
    assert rules == [rules[0]] + rules[1..];
    forall q | q in tail ensures q.interval <= rules[0].interval {
      assert q in multiset(tail);
      assert q == r || q in rules[1..];
    }
  }

  /** Longest interval first, as a stable sort on the reversed interval yields. */
  function SortByInterval(rules: seq<Rule>): (sorted: seq<Rule>)
    ensures Sorted(sorted) && multiset(sorted) == multiset(rules)
  {
    if rules == [] then []
    else
      assert rules == [rules[0]] + rules[1..];
      InsertByInterval(rules[0], SortByInterval(rules[1..]))
  }

  /** Reordering keeps names and intervals pairwise distinct. */
  lemma SortedIsValid(rules: seq<Rule>, sorted: seq<Rule>)
    requires multiset(sorted) == multiset(rules) && Sorted(sorted) && |rules| > 0
    requires forall r | r in rules :: ValidRule(r)
    requires forall i, j | 0 <= i < j < |rules| ::
      rules[i].interval != rules[j].interval && rules[i].name != rules[j].name
    ensures ValidRules(sorted)
  {
    forall r | r in sorted ensures r in rules { assert r in multiset(sorted); }
    assert |sorted| == |multiset(sorted)| == |multiset(rules)| == |rules|;
    forall i, j | 0 <= i < j < |sorted|
      ensures sorted[i].interval > sorted[j].interval && sorted[i].name != sorted[j].name
    {
      var a, b := sorted[i], sorted[j];
      assert a in rules && b in rules;
      if a == b {
        TwiceIn(sorted, i, j);
        OnceIn(rules, a);
      } else {
        var x :| 0 <= x < |rules| && rules[x] == a;
        var y :| 0 <= y < |rules| && rules[y] == b;
        assert x < y || y < x;
      }
    }
    PairwiseIsRecursive(sorted);
  }

  lemma {:induction false} PairwiseIsRecursive(rules: seq<Rule>)
    requires forall r | r in rules :: ValidRule(r)
    requires forall i, j | 0 <= i < j < |rules| ::
      rules[i].interval > rules[j].interval && rules[i].name != rules[j].name
    ensures WellOrdered(rules)
  {
    if rules != [] {
      PairwiseIsRecursive(rules[1..]);
      assert FindRule(rules[1..], rules[0].name).None?;
    }
  }

  lemma TwiceIn(s: seq<Rule>, i: nat, j: nat)
    requires i < j < |s| && s[i] == s[j]
    ensures multiset(s)[s[i]] >= 2
  {
    assert s == s[..j] + s[j..];
    assert s[i] in s[..j] && s[j] in s[j..];
  }

  lemma {:induction false} OnceIn(s: seq<Rule>, r: Rule)
    requires forall i, j | 0 <= i < j < |s| :: s[i] != s[j]
    ensures multiset(s)[r] <= 1
  {
    if s != [] {
      OnceIn(s[1..], r);
      assert s == [s[0]] + s[1..];
      if s[0] == r {
        assert r !in s[1..];
        assert r !in multiset(s[1..]);
      }
    }
  }

  /** The schedule the daemon runs on exists exactly for well-formed settings, and is always valid. */
  method TryFrom(breaks: Breaks) returns (r: Result<Schedule, ConfigError>)
    requires DistinctKeys(breaks.types)
    ensures r.Ok? <==> WellFormed(breaks)
    ensures r.Ok? ==>
      && ValidSchedule(r.value)
      && r.value.afterActive == breaks.afterActive
      && r.value.resetAfterIdle == breaks.resetAfterIdle
      && r.value.resetCountAfterIdle == breaks.resetCountAfterIdle
      && multiset(r.value.rules) == multiset(FromConfigs(breaks.types))
    ensures r.Err? ==> Reports(r.error, breaks)
  {
    var checked := Validate(breaks);
    if checked.Err? { return Err(checked.error); }
    var rules := FromConfigs(breaks.types);
    var sorted := SortByInterval(rules);
    SortedIsValid(rules, sorted);
    return Ok(Schedule(breaks.afterActive, breaks.resetAfterIdle, breaks.resetCountAfterIdle, sorted));
  }
}
