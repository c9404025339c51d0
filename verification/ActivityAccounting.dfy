/** No sampled time is lost, and none of it exceeds what the daemon will credit. */
module ActivityAccounting {
  import opened Base
  import opened RuntimeModel
  import opened RuntimeRuns
  import opened ActivityModel
  import N = NoSpeedUp

  /** Time in a list of events, by kind. */
  datatype Totals = Totals(active: nat, idle: nat, wall: nat)

  function TimeIn(events: seq<RuntimeEvent>): Totals {
    if events == [] then Totals(0, 0, 0)
    else Add(TimeIn(events[..|events| - 1]), events[|events| - 1])
  }

  function Add(t: Totals, e: RuntimeEvent): Totals {
    match e
    case ActiveElapsed(x) => t.(active := t.active + x)
    case IdleElapsed(x) => t.(idle := t.idle + x)
    case WallClockElapsed(x) => t.(wall := t.wall + x)
    case _ => t
  }

  lemma TimeOfAppend(events: seq<RuntimeEvent>, e: RuntimeEvent)
    ensures TimeIn(events + [e]) == Add(TimeIn(events), e)
  {
    assert (events + [e])[..|events|] == events;
  }

  /** The time one reading stands for: at least one interval, and everything since the last reading. */
  function CoveredBy(p: Poller, s: Sample): nat {
    if p.lastSampledAt.None? then p.interval
    else Max(p.interval, SaturatingSub(s.at, p.lastSampledAt.value))
  }

  function Covered(p: Poller, samples: seq<Sample>): nat
    decreases |samples|
  {
    if samples == [] then 0 else CoveredBy(p, samples[0]) + Covered(QueueSample(p, samples[0]), samples[1..])
  }

  function ActiveCount(samples: seq<Sample>): nat {
    if samples == [] then 0 else (if samples[0].idleFor <= IDLE_THRESHOLD then 1 else 0) + ActiveCount(samples[1..])
  }

  /** What a stretch of readings added. */
  predicate Grew(before: Totals, after: Totals, active: nat, covered: nat, wall: nat) {
    && after.active == before.active + active
    && after.active + after.idle == before.active + before.idle + covered
    && after.wall == before.wall + wall
  }

  lemma SampleTime(p: Poller, s: Sample)
    ensures Grew(TimeIn(p.events), TimeIn(QueueSample(p, s).events),
                 if s.idleFor <= IDLE_THRESHOLD then p.interval else 0, CoveredBy(p, s), p.interval)
  {
    var wall := p.events + [WallClockElapsed(p.interval)];
    var unobserved := UnobservedIdle(p, s.at);
    var gap := if unobserved.Some? then wall + [IdleElapsed(unobserved.value)] else wall;
    var last := if StateFor(s.idleFor) == Active then ActiveElapsed(p.interval) else IdleElapsed(p.interval);
    assert QueueSample(p, s).events == gap + [last];
    TimeOfAppend(p.events, WallClockElapsed(p.interval));
    if unobserved.Some? { TimeOfAppend(wall, IdleElapsed(unobserved.value)); }
    TimeOfAppend(gap, last);
  }

  /** Active readings count one interval each, and active and idle time together cover all the time there was. */
  lemma {:induction false} SamplesCoverTime(p: Poller, samples: seq<Sample>)
    ensures Grew(TimeIn(p.events), TimeIn(QueueSamples(p, samples).events),
                 Times(ActiveCount(samples), p.interval), Covered(p, samples), Times(|samples|, p.interval))
    decreases |samples|
  {
    if samples != [] {
      var next := QueueSample(p, samples[0]);
      SampleTime(p, samples[0]);
      SamplesCoverTime(next, samples[1..]);
      GrewTwice(TimeIn(p.events), TimeIn(next.events), TimeIn(QueueSamples(next, samples[1..]).events), p.interval,
                samples[0], samples[1..], CoveredBy(p, samples[0]), Covered(next, samples[1..]));
      assert [samples[0]] + samples[1..] == samples;
    }
  }

  lemma GrewTwice(
    before: Totals, mid: Totals, after: Totals, interval: nat, s: Sample, rest: seq<Sample>, first: nat, later: nat)
    requires Grew(before, mid, if s.idleFor <= IDLE_THRESHOLD then interval else 0, first, interval)
    requires Grew(mid, after, Times(ActiveCount(rest), interval), later, Times(|rest|, interval))
    ensures Grew(before, after, Times(ActiveCount([s] + rest), interval), first + later, Times(|rest| + 1, interval))
  {
    assert ([s] + rest)[1..] == rest;
  }

  /** The clock never goes back. */
  predicate Ordered(from: nat, samples: seq<Sample>)
    decreases |samples|
  {
    samples == [] || (from <= samples[0].at && Ordered(samples[0].at, samples[1..]))
  }

  /** No reading comes early. */
  predicate Spaced(from: nat, interval: nat, samples: seq<Sample>)
    decreases |samples|
  {
    samples == [] || (from + interval <= samples[0].at && Spaced(samples[0].at, interval, samples[1..]))
  }

  function LastAt(from: nat, samples: seq<Sample>): nat
    decreases |samples|
  {
    if samples == [] then from else LastAt(samples[0].at, samples[1..])
  }

  /** Time is never lost while the clock goes forward, and it is exact when no reading comes early. */
  lemma {:induction false} CoveredIsElapsed(p: Poller, from: nat, samples: seq<Sample>)
    requires p.lastSampledAt == Some(from) && Ordered(from, samples)
    ensures from <= LastAt(from, samples) <= from + Covered(p, samples)
    ensures Covered(p, samples) == LastAt(from, samples) - from <==> Spaced(from, p.interval, samples)
    decreases |samples|
  {
    if samples != [] {
      CoveredIsElapsed(QueueSample(p, samples[0]), samples[0].at, samples[1..]);
    }
  }

  // ----- the daemon's side -----

  /** Active time never exceeds what is left of the latest tick. */
  predicate Funded(events: seq<RuntimeEvent>, budget: nat) {
    events == [] ||
    match events[0]
    case WallClockElapsed(x) => Funded(events[1..], x)
    case ActiveElapsed(x) => x <= budget && Funded(events[1..], budget - x)
    case _ => Funded(events[1..], budget)
  }

  function BudgetAfter(events: seq<RuntimeEvent>, budget: nat): nat {
    if events == [] then budget
    else match events[0]
      case WallClockElapsed(x) => BudgetAfter(events[1..], x)
      case ActiveElapsed(x) => BudgetAfter(events[1..], SaturatingSub(budget, x))
      case _ => BudgetAfter(events[1..], budget)
  }

  lemma {:induction false} FundedConcat(a: seq<RuntimeEvent>, b: seq<RuntimeEvent>, budget: nat)
    ensures Funded(a + b, budget) <==> Funded(a, budget) && Funded(b, BudgetAfter(a, budget))
    ensures BudgetAfter(a + b, budget) == BudgetAfter(b, BudgetAfter(a, budget))
  {
    if a == [] {
      assert a + b == b;
    } else {
      assert (a + b)[0] == a[0] && (a + b)[1..] == a[1..] + b;
      match a[0]
      case WallClockElapsed(x) => FundedConcat(a[1..], b, x);
      case ActiveElapsed(x) => FundedConcat(a[1..], b, SaturatingSub(budget, x));
      case _ => FundedConcat(a[1..], b, budget);
    }
  }

  lemma SampleIsFunded(p: Poller, s: Sample, budget: nat)
    ensures Funded(SampleEvents(p, s), budget)
  {
    var es := SampleEvents(p, s);
    var last := if StateFor(s.idleFor) == Active then ActiveElapsed(p.interval) else IdleElapsed(p.interval);
    assert Funded([last], p.interval);
    if UnobservedIdle(p, s.at).Some? {
      assert es[1..] == [IdleElapsed(UnobservedIdle(p, s.at).value), last] && es[1..][1..] == [last];
    } else {
      assert es[1..] == [last];
    }
  }

  lemma {:induction false} QueueExtends(p: Poller, samples: seq<Sample>)
    ensures p.events <= QueueSamples(p, samples).events
    decreases |samples|
  {
    if samples != [] { QueueExtends(QueueSample(p, samples[0]), samples[1..]); }
  }

  /** Whatever a poller queues is within the ticks it queues. */
  lemma {:induction false} SamplesAreFunded(p: Poller, samples: seq<Sample>, budget: nat)
    requires Funded(p.events, budget)
    ensures Funded(QueueSamples(p, samples).events, budget)
    decreases |samples|
  {
    if samples != [] {
      SampleIsFunded(p, samples[0], BudgetAfter(p.events, budget));
      FundedConcat(p.events, SampleEvents(p, samples[0]), budget);
      SamplesAreFunded(QueueSample(p, samples[0]), samples[1..], budget);
    }
  }

  /** Inputs that leave the budget alone: everything but ticks and reported activity. */
  predicate LeavesBudget(input: Input) {
    match input
    case Local(WallClockElapsed(_)) => false
    case Local(ActiveElapsed(_)) => false
    case Sync(Domain(_, ActiveTimeElapsed(_))) => false
    case _ => true
  }

  /** The daemon takes the events as its inputs, in order, with any other inputs in between. */
  predicate Feeds(turns: seq<Turn>, events: seq<RuntimeEvent>)
    decreases |turns|
  {
    if turns == [] then events == []
    else
      || (LeavesBudget(turns[0].input) && Feeds(turns[1..], events))
      || (events != [] && turns[0].input == Local(events[0]) && Feeds(turns[1..], events[1..]))
  }

  function ActiveIn(events: seq<RuntimeEvent>): nat {
    if events == [] then 0
    else (if events[0].ActiveElapsed? then events[0].elapsed else 0) + ActiveIn(events[1..])
  }

  /** One funded event is credited in full and leaves the budget the rest is funded from. */
  lemma EventIsCredited(r: Runtime, turn: Turn, events: seq<RuntimeEvent>)
    requires r.Valid() && events != [] && turn.input == Local(events[0]) && Funded(events, r.activity.budget)
    requires r.activity.wallClockSeen || events[0].WallClockElapsed?
    ensures N.CreditedIn(r, turn.input) == (if events[0].ActiveElapsed? then events[0].elapsed else 0)
    ensures var after := TakeTurn(r, turn).after.activity;
      after.wallClockSeen && Funded(events[1..], after.budget)
  {
    N.ActivityAfter(r, turn);
  }

  lemma OtherIsNotCredited(r: Runtime, turn: Turn)
    requires r.Valid() && LeavesBudget(turn.input)
    ensures N.CreditedIn(r, turn.input) == 0 && TakeTurn(r, turn).after.activity == r.activity
  {
    N.ActivityAfter(r, turn);
  }

  lemma {:induction false} FundedIsCredited(r: Runtime, events: seq<RuntimeEvent>, turns: seq<Turn>)
    requires r.Valid() && Funded(events, r.activity.budget)
    requires r.activity.wallClockSeen || events == [] || events[0].WallClockElapsed?
    requires Feeds(turns, events) && Run(r, turns).running
    ensures N.RunAccount(r, turns).credited == ActiveIn(events)
    decreases |turns|
  {
    if turns != [] {
      var next := TakeTurn(r, turns[0]).after;
      if LeavesBudget(turns[0].input) && Feeds(turns[1..], events) {
        OtherIsNotCredited(r, turns[0]);
        FundedIsCredited(next, events, turns[1..]);
      } else {
        EventIsCredited(r, turns[0], events);
        FundedIsCredited(next, events[1..], turns[1..]);
      }
    }
  }

  /** With no peer reporting activity, the daemon credits all the active time its poller reports. */
  lemma LocalActivityIsCreditedInFull(r: Runtime, p: Poller, samples: seq<Sample>, turns: seq<Turn>)
    requires r.Valid() && p.events == []
    requires Feeds(turns, QueueSamples(p, samples).events) && Run(r, turns).running
    ensures N.RunAccount(r, turns).credited == Times(ActiveCount(samples), p.interval)
  {
    var events := QueueSamples(p, samples).events;
    SamplesAreFunded(p, samples, r.activity.budget);
    if samples != [] { QueueExtends(QueueSample(p, samples[0]), samples[1..]); }
    FundedIsCredited(r, events, turns);
    SamplesCoverTime(p, samples);
    ActiveInTotals(events);
  }

  lemma {:induction false} ActiveInAppend(events: seq<RuntimeEvent>, e: RuntimeEvent)
    ensures ActiveIn(events + [e]) == ActiveIn(events) + (if e.ActiveElapsed? then e.elapsed else 0)
  {
    if events == [] {
      assert events + [e] == [e];
    } else {
      assert (events + [e])[0] == events[0] && (events + [e])[1..] == events[1..] + [e];
      ActiveInAppend(events[1..], e);
    }
  }

  lemma {:induction false} ActiveInTotals(events: seq<RuntimeEvent>)
    ensures ActiveIn(events) == TimeIn(events).active
  {
    if events != [] {
      var before, last := events[..|events| - 1], events[|events| - 1];
      assert events == before + [last];
      ActiveInTotals(before);
      ActiveInAppend(before, last);
    }
  }

  // ----- deadlines -----

  /** A deadline is met exactly when its time has come, and a clock set back never lengthens a break. */
  lemma DeadlineMeans(startedAt: nat, duration: nat, now: nat)
    ensures FinishedAt(StartingAt(startedAt, duration), now) <==> duration == 0 || startedAt + duration <= now
    ensures RemainingAt(StartingAt(startedAt, duration), now) <= duration
    ensures startedAt <= now ==>
      RemainingAt(StartingAt(startedAt, duration), now) == SaturatingSub(duration, now - startedAt)
    ensures now <= startedAt ==> RemainingAt(StartingAt(startedAt, duration), now) == duration
  {
  }

  /**
   * Two machines with the same clock that show the same break end it within a millisecond of each
   * other, whenever each of them began to show it.
   */
  lemma SameBreakEndsTogether(startedAtMs: nat, duration: nat, here: nat, there: nat, hereMs: nat, thereMs: nat)
    requires Millis(hereMs) <= here < Millis(hereMs + 1) && Millis(thereMs) <= there < Millis(thereMs + 1)
    requires startedAtMs <= hereMs && startedAtMs <= thereMs
    requires Remaining(hereMs, startedAtMs, duration) > 0 && Remaining(thereMs, startedAtMs, duration) > 0
    ensures var mine := StartingAt(here, Remaining(hereMs, startedAtMs, duration)).endsAt;
      var theirs := StartingAt(there, Remaining(thereMs, startedAtMs, duration)).endsAt;
      && Millis(startedAtMs) + duration <= mine < Millis(startedAtMs + 1) + duration
      && -1_000_000 < mine - theirs < 1_000_000
  {
  }
}
