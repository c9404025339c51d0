/** However much active time peers report, breaks come no faster than the wall clock allows. */
module NoSpeedUp {
  import opened Base
  import opened Schedules
  import opened Protocol
  import opened RuntimeModel
  import opened RuntimeRuns
  import opened Prediction
  import S = SchedulerModel

  /** Inputs that do not carry a peer's scheduler position. */
  predicate NoPositions(input: Input) {
    !(input.Sync? && input.transport.Domain?
      && (input.transport.event.BreakStarted? || input.transport.event.SchedulerState?))
  }

  function WallClockIn(input: Input): nat {
    if input.Local? && input.event.WallClockElapsed? then input.event.elapsed else 0
  }

  /** Active time an input reports, by this machine or by a peer. */
  function ActiveIn(input: Input): nat {
    match input
    case Local(ActiveElapsed(elapsed)) => elapsed
    case Sync(Domain(_, ActiveTimeElapsed(elapsed))) => elapsed
    case _ => 0
  }

  function CreditedIn(r: Runtime, input: Input): nat { Credited(r.activity, ActiveIn(input)) }

  /** Active time of the slot in progress that a peer's position brings along. */
  function BroughtIn(input: Input): nat {
    match input
    case Sync(Domain(_, BreakStarted(_, _, _, _, p))) => p.activeElapsed
    case Sync(Domain(_, SchedulerState(_, activeElapsed, _, _))) => activeElapsed
    case _ => 0
  }

  /** Slots gained by active time; a peer's position moves the slot by itself. */
  function GainedIn(before: S.Scheduler, after: S.Scheduler, input: Input): nat {
    if NoPositions(input) then SaturatingSub(after.slot, before.slot) else 0
  }

  /** A tick refills the budget, and crediting spends it. */
  lemma CreditWithinBudget(r: Runtime, turn: Turn)
    requires r.Valid() && r.activity.wallClockSeen
    ensures TakeTurn(r, turn).after.activity.wallClockSeen
    ensures CreditedIn(r, turn.input) + TakeTurn(r, turn).after.activity.budget
         <= r.activity.budget + WallClockIn(turn.input)
  {
    ActivityAfter(r, turn);
  }

  /** Only ticks and reported active time touch the budget. */
  lemma ActivityAfter(r: Runtime, turn: Turn)
    requires r.Valid()
    ensures TakeTurn(r, turn).after.activity
      == match turn.input
         case Local(WallClockElapsed(elapsed)) => CombinedActivity(elapsed, true)
         case Local(ActiveElapsed(elapsed)) => Spend(r.activity, elapsed)
         case Sync(Domain(_, ActiveTimeElapsed(elapsed))) => Spend(r.activity, elapsed)
         case _ => r.activity
  {
    match turn.input
    case Local(e) => LocalActivity(Drained(r), turn.env, e);
    case Sync(t) => SyncActivity(Drained(r), turn.env, t);
  }

  lemma StartAtActivity(r: Runtime, env: Env, b: ScheduledBreak, at: nat, propagation: Propagation)
    ensures StartBreakAt(r, env, b, at, propagation).after.activity == r.activity
  {
  }

  lemma AdvanceActivity(r: Runtime, env: Env, elapsed: nat, propagation: Propagation)
    requires r.Valid()
    ensures AdvanceActive(r, env, elapsed, propagation).after.activity == r.activity
  {
    var o := S.AdvanceActive(r.scheduler, elapsed, env.pick);
    if o.started.Some? {
      StartAtActivity(ClearNotice(r.(scheduler := o.after)), env, o.started.value, env.startNow, propagation);
    }
  }

  lemma ObserveActivity(r: Runtime, env: Env, elapsed: nat, a: Propagation, b: Propagation)
    requires r.Valid()
    ensures ObserveActive(r, env, elapsed, a, b).after.activity == Spend(r.activity, elapsed)
  {
    var tracked := BroadcastIfNeeded(ResetIdleTracking(r), a, ActiveTimeElapsed(elapsed));
    AdvanceActivity(tracked.(activity := Spend(r.activity, elapsed)), env, Credited(r.activity, elapsed), b);
  }

  lemma ManualActivity(r: Runtime, env: Env, name: string)
    requires r.Valid()
    ensures StartManualBreak(r, env, name, Forward).after.activity == r.activity
  {
    var o := S.StartManualBreak(r.scheduler, name, env.pick);
    if o.started.Some? {
      StartAtActivity(r.(scheduler := o.after), env, o.started.value, env.startNow, Forward);
    }
  }

  lemma ClockActivity(r: Runtime, env: Env, elapsed: nat)
    ensures AdvanceIdle(r, elapsed).activity == r.activity
    ensures AdvanceWallClock(r, env, elapsed).activity == CombinedActivity(elapsed, true)
  {
  }

  lemma LocalActivity(r: Runtime, env: Env, e: RuntimeEvent)
    requires r.Valid()
    ensures HandleEvent(r, env, e).after.activity
      == match e
         case WallClockElapsed(elapsed) => CombinedActivity(elapsed, true)
         case ActiveElapsed(elapsed) => Spend(r.activity, elapsed)
         case _ => r.activity
  {
    match e
    case ActiveElapsed(elapsed) => ObserveActivity(r, env, elapsed, Forward, Forward);
    case IdleElapsed(elapsed) => ClockActivity(r, env, elapsed);
    case WallClockElapsed(elapsed) => ClockActivity(r, env, elapsed);
    case StartManual(name) => ManualActivity(r, env, name);
    case _ =>
  }

  lemma SyncedStartActivity(r: Runtime, env: Env, peer: PeerId, start: SyncedStart)
    ensures ApplySyncedBreakStart(r, env, peer, start).after.activity == r.activity
  {
  }

  lemma SyncActivity(r: Runtime, env: Env, t: TransportEvent)
    requires r.Valid()
    ensures HandleTransport(r, env, t).after.activity
      == match t
         case Domain(_, ActiveTimeElapsed(elapsed)) => Spend(r.activity, elapsed)
         case _ => r.activity
  {
    match t
    case Domain(_, ActiveTimeElapsed(elapsed)) => ObserveActivity(r, env, elapsed, Suppress, Forward);
    case Domain(peer, BreakStarted(name, message, at, origin, position)) =>
      SyncedStartActivity(r, env, peer, SyncedStart(name, message, at, origin, position, None));
    case Domain(peer, SchedulerState(slot, elapsed, last, Some(b))) =>
      SyncedStartActivity(r, env, peer,
        SyncedStart(b.name, b.message, b.startedAtMs, b.origin, Position(slot, elapsed, last), Some(b.lockAfter)));
    case _ =>
  }

  /** Filling slots costs their full length: a break start throws time away but never adds any. */
  lemma AdvanceCost(s: S.Scheduler, elapsed: nat, pick: nat)
    requires s.Valid()
    ensures var after := S.AdvanceActive(s, elapsed, pick).after;
      && s.slot <= after.slot
      && Times(after.slot - s.slot, s.schedule.afterActive) + after.activeElapsed <= s.activeElapsed + elapsed
  {
    if s.state == S.Ready(S.Active) {
      var unit := s.schedule.afterActive;
      var filled := Quotient(s.activeElapsed + elapsed, unit);
      QuotientParts(s.activeElapsed + elapsed, unit);
      if S.ReachedSlot(s, elapsed) >= S.NextSlot(s) {
        var gap := S.NextSlot(s) - s.slot;
        TimesAdd(gap, filled - gap, unit);
      }
    }
  }

  /** Slots gained and time in progress cost at most the time that came in. */
  predicate PaidBy(before: S.Scheduler, after: S.Scheduler, gained: nat, time: nat) {
    Times(gained, before.schedule.afterActive) + after.activeElapsed <= before.activeElapsed + time
  }

  predicate Paid(before: S.Scheduler, after: S.Scheduler, credited: nat) {
    PaidBy(before, after, SaturatingSub(after.slot, before.slot), credited)
  }

  /** A start whose time is already over leaves the scheduler finished instead of pending. */
  lemma AdvanceLeaves(r: Runtime, env: Env, elapsed: nat, propagation: Propagation)
    requires r.Valid()
    ensures var advanced := S.AdvanceActive(r.scheduler, elapsed, env.pick).after;
      var after := AdvanceActive(r, env, elapsed, propagation).after.scheduler;
      after == advanced || after == S.FinishBreak(advanced)
  {
  }

  lemma ObserveLeaves(r: Runtime, env: Env, elapsed: nat, a: Propagation, b: Propagation)
    requires r.Valid()
    ensures var credited := Credited(r.activity, elapsed);
      var advanced := S.AdvanceActive(r.scheduler, credited, env.pick).after;
      var after := ObserveActive(r, env, elapsed, a, b).after.scheduler;
      if credited == 0 then after == r.scheduler else after == advanced || after == S.FinishBreak(advanced)
  {
    var tracked := BroadcastIfNeeded(ResetIdleTracking(r), a, ActiveTimeElapsed(elapsed));
    AdvanceLeaves(tracked.(activity := Spend(r.activity, elapsed)), env, Credited(r.activity, elapsed), b);
  }

  lemma AdvancePaid(s: S.Scheduler, credited: nat, pick: nat, after: S.Scheduler)
    requires s.Valid()
    requires var advanced := S.AdvanceActive(s, credited, pick).after;
      after == advanced || after == S.FinishBreak(advanced)
    ensures Paid(s, after, credited)
  {
    AdvanceCost(s, credited, pick);
  }

  lemma ObservePaid(r: Runtime, env: Env, elapsed: nat, a: Propagation, b: Propagation)
    requires r.Valid()
    ensures Paid(r.scheduler, ObserveActive(r, env, elapsed, a, b).after.scheduler, Credited(r.activity, elapsed))
  {
    var credited := Credited(r.activity, elapsed);
    ObserveLeaves(r, env, elapsed, a, b);
    if credited != 0 {
      AdvancePaid(r.scheduler, credited, env.pick, ObserveActive(r, env, elapsed, a, b).after.scheduler);
    }
  }

  lemma ManualPaid(r: Runtime, env: Env, name: string)
    requires r.Valid()
    ensures Paid(r.scheduler, StartManualBreak(r, env, name, Forward).after.scheduler, 0)
  {
  }

  lemma IdlePaid(r: Runtime, env: Env, elapsed: nat)
    requires r.Valid()
    ensures Paid(r.scheduler, HandleEvent(r, env, IdleElapsed(elapsed)).after.scheduler, 0)
  {
  }

  lemma LocalPaid(r: Runtime, env: Env, e: RuntimeEvent)
    requires r.Valid()
    ensures Paid(r.scheduler, HandleEvent(r, env, e).after.scheduler, CreditedIn(r, Local(e)))
  {
    match e
    case ActiveElapsed(elapsed) => ObservePaid(r, env, elapsed, Forward, Forward);
    case StartManual(name) => ManualPaid(r, env, name);
    case IdleElapsed(elapsed) => IdlePaid(r, env, elapsed);
    case _ =>
  }

  lemma SyncPaid(r: Runtime, env: Env, t: TransportEvent)
    requires r.Valid() && NoPositions(Sync(t))
    ensures Paid(r.scheduler, HandleTransport(r, env, t).after.scheduler, CreditedIn(r, Sync(t)))
  {
    match t
    case Domain(_, ActiveTimeElapsed(elapsed)) => ObservePaid(r, env, elapsed, Suppress, Forward);
    case _ =>
  }

  lemma StartAtElapsed(r: Runtime, env: Env, b: ScheduledBreak, at: nat, propagation: Propagation)
    ensures StartBreakAt(r, env, b, at, propagation).after.scheduler.activeElapsed <= r.scheduler.activeElapsed
    ensures ReplaceCurrentBreak(r, env, b, at).after.scheduler.activeElapsed <= r.scheduler.activeElapsed
  {
  }

  lemma JoinElapsed(r: Runtime, env: Env, start: SyncedStart)
    ensures StartSyncedBreak(r, env, start).after.scheduler.activeElapsed
         <= Max(r.scheduler.activeElapsed, start.position.activeElapsed)
  {
    var o := S.StartActiveSyncedBreak(r.scheduler, start.name, start.origin, env.pick);
    if o.started.Some? {
      var lock := if start.lockAfter.Some? then start.lockAfter.value else o.started.value.autolock;
      StartAtElapsed(r.(scheduler := S.MergeSyncedPosition(o.after, start.position)), env,
                     o.started.value.(message := start.message, autolock := lock), start.startedAtMs, Suppress);
    }
  }

  lemma SyncedStartElapsed(r: Runtime, env: Env, peer: PeerId, start: SyncedStart)
    ensures ApplySyncedBreakStart(r, env, peer, start).after.scheduler.activeElapsed
         <= Max(r.scheduler.activeElapsed, start.position.activeElapsed)
  {
    if r.current.None? {
      JoinElapsed(r, env, start);
    } else {
      var o := S.ReplacementSyncedBreak(r.scheduler, start.name, start.origin, env.pick);
      if o.started.Some? {
        var lock := ReplacedLock(start, r.current.value, o.started.value.autolock);
        StartAtElapsed(r.(scheduler := S.MergeSyncedPosition(o.after, start.position)), env,
                       o.started.value.(message := start.message, autolock := lock), start.startedAtMs, Suppress);
      }
    }
  }

  /** A peer's position brings in no more active time than it says. */
  lemma PositionPaid(r: Runtime, env: Env, peer: PeerId, e: SyncEvent)
    requires r.Valid() && !NoPositions(Sync(Domain(peer, e)))
    ensures PaidBy(r.scheduler, HandleSyncEvent(r, env, peer, e).after.scheduler, 0, BroughtIn(Sync(Domain(peer, e))))
  {
    match e
    case BreakStarted(name, message, at, origin, p) =>
      SyncedStartElapsed(r, env, peer, SyncedStart(name, message, at, origin, p, None));
    case SchedulerState(slot, elapsed, last, Some(b)) =>
      SyncedStartElapsed(r, env, peer,
        SyncedStart(b.name, b.message, b.startedAtMs, b.origin, Position(slot, elapsed, last), Some(b.lockAfter)));
    case SchedulerState(_, _, _, None) =>
  }

  lemma TurnPaid(r: Runtime, turn: Turn)
    requires r.Valid()
    ensures var after := TakeTurn(r, turn).after.scheduler;
      PaidBy(r.scheduler, after, GainedIn(r.scheduler, after, turn.input),
             CreditedIn(r, turn.input) + BroughtIn(turn.input))
  {
    if NoPositions(turn.input) {
      match turn.input
      case Local(e) => LocalPaid(Drained(r), turn.env, e);
      case Sync(t) => SyncPaid(Drained(r), turn.env, t);
    } else {
      PositionPaid(Drained(r), turn.env, turn.input.transport.peer, turn.input.transport.event);
    }
  }

  function TotalWallClock(turns: seq<Turn>): nat {
    if turns == [] then 0 else WallClockIn(turns[0].input) + TotalWallClock(turns[1..])
  }

  /** What a whole run credits, is brought and gains by active time, and the state it ends in. */
  datatype Account = Account(credited: nat, brought: nat, gained: nat, final: Runtime)

  function AddTurn(credited: nat, brought: nat, gained: nat, rest: Account): Account {
    Account(credited + rest.credited, brought + rest.brought, gained + rest.gained, rest.final)
  }

  function RunAccount(r: Runtime, turns: seq<Turn>): Account
    requires r.Valid()
    decreases |turns|
  {
    if turns == [] then Account(0, 0, 0, r)
    else
      var first := TakeTurn(r, turns[0]);
      AddTurn(CreditedIn(r, turns[0].input), BroughtIn(turns[0].input),
              GainedIn(r.scheduler, first.after.scheduler, turns[0].input),
              if first.running then RunAccount(first.after, turns[1..]) else Account(0, 0, 0, first.after))
  }

  lemma {:induction false} AccountEndsWithRun(r: Runtime, turns: seq<Turn>)
    requires r.Valid()
    ensures RunAccount(r, turns).final == Run(r, turns).after
    decreases |turns|
  {
    if turns != [] && TakeTurn(r, turns[0]).running {
      AccountEndsWithRun(TakeTurn(r, turns[0]).after, turns[1..]);
    }
  }

  /** Local and remote credit together stay within the wall clock, once it has ticked. */
  lemma {:induction false} CreditWithinWallClock(r: Runtime, turns: seq<Turn>)
    requires r.Valid() && r.activity.wallClockSeen
    ensures RunAccount(r, turns).credited + RunAccount(r, turns).final.activity.budget
         <= r.activity.budget + TotalWallClock(turns)
    decreases |turns|
  {
    if turns != [] {
      CreditWithinBudget(r, turns[0]);
      if TakeTurn(r, turns[0]).running {
        CreditWithinWallClock(TakeTurn(r, turns[0]).after, turns[1..]);
      }
    }
  }

  /** Everything a run gained was paid for, together with the time in progress at its end. */
  predicate PaidFor(s: S.Scheduler, account: Account) {
    PaidBy(s, account.final.scheduler, account.gained, account.credited + account.brought)
  }

  lemma PaidTwice(s: S.Scheduler, mid: S.Scheduler, credited: nat, brought: nat, gained: nat, rest: Account)
    requires PaidBy(s, mid, gained, credited + brought) && s.schedule == mid.schedule && PaidFor(mid, rest)
    ensures PaidFor(s, AddTurn(credited, brought, gained, rest))
  {
    TimesAdd(gained, rest.gained, s.schedule.afterActive);
  }

  /**
   * Over any run, across resets and peers' positions too: each slot gained by active time costs its
   * full share of credited time, or of time in progress that a position brought along.
   */
  lemma {:induction false} SlotsWithinCredit(r: Runtime, turns: seq<Turn>)
    requires r.Valid()
    ensures PaidFor(r.scheduler, RunAccount(r, turns))
    decreases |turns|
  {
    if turns != [] {
      var first := TakeTurn(r, turns[0]);
      var rest := Account(0, 0, 0, first.after);
      if first.running {
        rest := RunAccount(first.after, turns[1..]);
        SlotsWithinCredit(first.after, turns[1..]);
      }
      TurnPaid(r, turns[0]);
      PaidTwice(r.scheduler, first.after.scheduler, CreditedIn(r, turns[0].input), BroughtIn(turns[0].input),
                GainedIn(r.scheduler, first.after.scheduler, turns[0].input), rest);
    }
  }

  /** The cadence is bounded by real time, whatever peers claim about their activity. */
  lemma SlotsWithinWallClock(r: Runtime, turns: seq<Turn>)
    requires r.Valid() && r.activity.wallClockSeen
    ensures Times(RunAccount(r, turns).gained, r.scheduler.schedule.afterActive)
            + Run(r, turns).after.scheduler.activeElapsed
         <= r.scheduler.activeElapsed + r.activity.budget + TotalWallClock(turns) + RunAccount(r, turns).brought
  {
    AccountEndsWithRun(r, turns);
    CreditWithinWallClock(r, turns);
    SlotsWithinCredit(r, turns);
  }

  /** Without peers' positions those are all the slots there are, and nothing is brought along. */
  lemma {:induction false} WithoutPositions(r: Runtime, turns: seq<Turn>)
    requires r.Valid() && forall i | 0 <= i < |turns| :: NoPositions(turns[i].input)
    ensures RunAccount(r, turns).brought == 0
    ensures SaturatingSub(Run(r, turns).after.scheduler.slot, r.scheduler.slot) <= RunAccount(r, turns).gained
    decreases |turns|
  {
    if turns != [] && TakeTurn(r, turns[0]).running {
      WithoutPositions(TakeTurn(r, turns[0]).after, turns[1..]);
    }
  }
}
