/** What idling does to the schedule: the shorter timeout clears the slot in progress, the longer one all. */
module IdleResets {
  import opened Base
  import opened Schedules
  import opened Protocol
  import opened RuntimeModel
  import opened RuntimeRuns
  import S = SchedulerModel
  import O = Outputs

  /** The timers run on the timeouts of the schedule. */
  predicate TimersMatch(r: Runtime) {
    && r.activeTimeIdleReset.timeout == r.scheduler.schedule.resetAfterIdle
    && r.breakCountIdleReset.timeout == r.scheduler.schedule.resetCountAfterIdle
  }

  predicate Restarted(i: IdleReset) { i.idleElapsed == 0 && !i.triggered }

  /** Someone has just been active, or nothing has happened yet. */
  predicate Fresh(r: Runtime) {
    TimersMatch(r) && Restarted(r.activeTimeIdleReset) && Restarted(r.breakCountIdleReset)
  }

  lemma StartsFresh(schedule: Schedule, localPeer: Option<PeerId>)
    requires ValidSchedule(schedule)
    ensures Fresh(New(schedule, localPeer))
  {
  }

  lemma TurnKeepsTimers(r: Runtime, turn: Turn)
    requires r.Valid() && TimersMatch(r)
    ensures TimersMatch(TakeTurn(r, turn).after)
  {
    O.TurnRejects(r, turn, 0);
  }

  lemma {:induction false} RunKeepsTimers(r: Runtime, turns: seq<Turn>)
    requires r.Valid() && TimersMatch(r)
    ensures TimersMatch(Run(r, turns).after)
    decreases |turns|
  {
    if turns != [] {
      TurnKeepsTimers(r, turns[0]);
      if TakeTurn(r, turns[0]).running { RunKeepsTimers(TakeTurn(r, turns[0]).after, turns[1..]); }
    }
  }

  /** Activity, here or at a peer. */
  predicate IsActivity(input: Input) {
    match input
    case Local(ActiveElapsed(_)) => true
    case Sync(Domain(_, ActiveTimeElapsed(_))) => true
    case _ => false
  }

  predicate SameTimers(r: Runtime, after: Runtime) {
    after.activeTimeIdleReset == r.activeTimeIdleReset && after.breakCountIdleReset == r.breakCountIdleReset
  }

  lemma StartKeepsTimers(r: Runtime, env: Env, b: ScheduledBreak, at: nat)
    ensures SameTimers(r, StartBreakAt(r, env, b, at, Forward).after)
  {
  }

  lemma AdvanceKeepsTimers(r: Runtime, env: Env, elapsed: nat)
    requires r.Valid()
    ensures SameTimers(r, AdvanceActive(r, env, elapsed, Forward).after)
  {
    var o := S.AdvanceActive(r.scheduler, elapsed, env.pick);
    if o.started.Some? {
      StartKeepsTimers(ClearNotice(r.(scheduler := o.after)), env, o.started.value, env.startNow);
    }
  }

  lemma ObserveRestarts(r: Runtime, env: Env, elapsed: nat, a: Propagation)
    requires r.Valid() && TimersMatch(r)
    ensures Fresh(ObserveActive(r, env, elapsed, a, Forward).after)
  {
    var tracked := BroadcastIfNeeded(ResetIdleTracking(r), a, ActiveTimeElapsed(elapsed));
    AdvanceKeepsTimers(tracked.(activity := Spend(r.activity, elapsed)), env, Credited(r.activity, elapsed));
  }

  lemma ActivityRestarts(r: Runtime, turn: Turn)
    requires r.Valid() && TimersMatch(r) && IsActivity(turn.input)
    ensures Fresh(TakeTurn(r, turn).after)
  {
    match turn.input
    case Local(ActiveElapsed(elapsed)) => ObserveRestarts(Drained(r), turn.env, elapsed, Forward);
    case Sync(Domain(_, ActiveTimeElapsed(elapsed))) => ObserveRestarts(Drained(r), turn.env, elapsed, Suppress);
  }

  // ----- idle stretches -----

  predicate AllIdle(turns: seq<Turn>) {
    turns == [] || (turns[0].input.Local? && turns[0].input.event.IdleElapsed? && AllIdle(turns[1..]))
  }

  function IdleIn(turns: seq<Turn>): nat
    requires AllIdle(turns)
  {
    if turns == [] then 0 else turns[0].input.event.elapsed + IdleIn(turns[1..])
  }

  /** Idle time since the last activity, or none reported. */
  predicate Reached(timeout: Option<nat>, idle: Option<nat>) {
    timeout.Some? && idle.Some? && timeout.value <= idle.value
  }

  function Added(idle: Option<nat>, elapsed: nat): Option<nat> {
    Some(elapsed + if idle.Some? then idle.value else 0)
  }

  /** Slot and satisfied slots go at the longer timeout, the time in progress at the first of both. */
  predicate Idled(r: Runtime, idle: Option<nat>, after: Runtime) {
    var time := Reached(r.scheduler.schedule.resetAfterIdle, idle);
    var count := Reached(r.scheduler.schedule.resetCountAfterIdle, idle);
    && after.scheduler.slot == (if count then 0 else r.scheduler.slot)
    && after.scheduler.activeElapsed == (if count || time then 0 else r.scheduler.activeElapsed)
    && after.scheduler.last.Keys == r.scheduler.last.Keys
    && (forall n | n in r.scheduler.last :: after.scheduler.last[n] == if count then 0 else r.scheduler.last[n])
    && after.scheduler.state == r.scheduler.state && after.current == r.current
    && after.notice == if count || time then None else r.notice
  }

  predicate TimerAt(i: IdleReset, timeout: Option<nat>, idle: Option<nat>, done: bool) {
    && i.timeout == timeout
    && (timeout.Some? ==>
          && (i.triggered <==> done || Reached(timeout, idle))
          && (!i.triggered ==> i.idleElapsed == if idle.Some? then idle.value else 0))
  }

  /** Both timers know how long it has been; once the longer one is through, neither fires again. */
  predicate TimersAt(r: Runtime, idle: Option<nat>) {
    var schedule := r.scheduler.schedule;
    var done := Reached(schedule.resetCountAfterIdle, idle);
    && TimerAt(r.activeTimeIdleReset, schedule.resetAfterIdle, idle, done)
    && TimerAt(r.breakCountIdleReset, schedule.resetCountAfterIdle, idle, done)
  }

  predicate Moved(r: Runtime, after: Runtime) { S.PositionOf(r.scheduler) != S.PositionOf(after.scheduler) }

  lemma StepTimers(r: Runtime, idle: Option<nat>, elapsed: nat)
    requires TimersAt(r, idle)
    ensures TimersAt(AdvanceIdle(r, elapsed), Added(idle, elapsed))
  {
  }

  predicate Reaches(schedule: Schedule, idle: Option<nat>, elapsed: nat) {
    Reached(schedule.resetCountAfterIdle, Added(idle, elapsed)) && !Reached(schedule.resetCountAfterIdle, idle)
  }

  lemma StepIdles(origin: Runtime, idle: Option<nat>, r: Runtime, elapsed: nat)
    requires TimersAt(r, idle) && Idled(origin, idle, r)
    requires r.scheduler.schedule == origin.scheduler.schedule
    ensures Idled(origin, Added(idle, elapsed), AdvanceIdle(r, elapsed))
  {
  }

  /** One stretch: a reset is sent exactly when it reaches the longer timeout and the position moves. */
  lemma StepResets(idle: Option<nat>, r: Runtime, elapsed: nat)
    requires TimersAt(r, idle) && r.sent == []
    ensures var after := AdvanceIdle(r, elapsed);
      after.sent == if Reaches(r.scheduler.schedule, idle, elapsed) && Moved(r, after) then [Broadcast(SchedulerReset)]
                    else []
  {
  }

  function IdleAfter(idle: Option<nat>, turns: seq<Turn>): Option<nat>
    requires AllIdle(turns)
    decreases |turns|
  {
    if turns == [] then idle else IdleAfter(Added(idle, turns[0].input.event.elapsed), turns[1..])
  }

  lemma {:induction false} StretchesIdle(origin: Runtime, idle: Option<nat>, r: Runtime, turns: seq<Turn>)
    requires r.Valid() && TimersAt(r, idle) && Idled(origin, idle, r) && AllIdle(turns)
    requires r.scheduler.schedule == origin.scheduler.schedule
    ensures var after := Run(r, turns).after;
      && Run(r, turns).running && TimersAt(after, IdleAfter(idle, turns)) && Idled(origin, IdleAfter(idle, turns), after)
    decreases |turns|
  {
    if turns != [] {
      var elapsed := turns[0].input.event.elapsed;
      StepTimers(Drained(r), idle, elapsed);
      StepIdles(origin, idle, Drained(r), elapsed);
      StretchesIdle(origin, Added(idle, elapsed), TakeTurn(r, turns[0]).after, turns[1..]);
    }
  }

  lemma {:induction false} IdleAdds(idle: Option<nat>, turns: seq<Turn>)
    requires AllIdle(turns)
    ensures IdleAfter(idle, turns) == if turns == [] then idle else Added(idle, IdleIn(turns))
    decreases |turns|
  {
    if turns != [] { IdleAdds(Added(idle, turns[0].input.event.elapsed), turns[1..]); }
  }

  /** How long it has been idle, if any idle time was reported at all. */
  function Total(turns: seq<Turn>): Option<nat>
    requires AllIdle(turns)
  {
    if turns == [] then None else Some(IdleIn(turns))
  }

  /**
   * Over any idle stretches since somebody was active: the slot and the satisfied slots stay while the
   * idle time is below the longer timeout and are zero from then on; the time in progress stays below
   * both and is zero from the first one on.
   */
  lemma IdlingResets(r: Runtime, turns: seq<Turn>)
    requires r.Valid() && Fresh(r) && AllIdle(turns)
    ensures Run(r, turns).running && Idled(r, Total(turns), Run(r, turns).after)
  {
    StretchesIdle(r, None, r, turns);
    IdleAdds(None, turns);
  }

  lemma TurnResets(idle: Option<nat>, r: Runtime, env: Env, elapsed: nat)
    requires r.Valid() && TimersAt(r, idle)
    ensures var after := TakeTurn(r, Turn(env, Local(IdleElapsed(elapsed)))).after;
      after.sent == if Reaches(r.scheduler.schedule, idle, elapsed) && Moved(r, after) then [Broadcast(SchedulerReset)]
                    else []
  {
    StepResets(idle, Drained(r), elapsed);
  }

  /** And the stretch that reaches the longer one tells the peers, if the position moved; no other does. */
  lemma ResetIsSentOnce(r: Runtime, turns: seq<Turn>, env: Env, elapsed: nat)
    requires r.Valid() && Fresh(r) && AllIdle(turns)
    ensures var before := Run(r, turns).after;
      var after := TakeTurn(before, Turn(env, Local(IdleElapsed(elapsed)))).after;
      after.sent == if Reaches(r.scheduler.schedule, Total(turns), elapsed) && Moved(before, after)
                    then [Broadcast(SchedulerReset)] else []
  {
    StretchesIdle(r, None, r, turns);
    IdleAdds(None, turns);
    TurnResets(Total(turns), Run(r, turns).after, env, elapsed);
  }

  /** From start-up, before anybody was active at all. */
  lemma IdlingFromStart(schedule: Schedule, localPeer: Option<PeerId>, turns: seq<Turn>)
    requires ValidSchedule(schedule) && AllIdle(turns)
    ensures Idled(New(schedule, localPeer), Total(turns), Run(New(schedule, localPeer), turns).after)
  {
    StartsFresh(schedule, localPeer);
    IdlingResets(New(schedule, localPeer), turns);
  }

  /** From start-up: whatever happened before, what counts is the idle time since the last activity. */
  lemma IdlingSinceActivity(
    schedule: Schedule, localPeer: Option<PeerId>, earlier: seq<Turn>, activity: Turn, turns: seq<Turn>)
    requires ValidSchedule(schedule) && IsActivity(activity.input) && AllIdle(turns)
    ensures var active := TakeTurn(Run(New(schedule, localPeer), earlier).after, activity).after;
      active.scheduler.schedule == schedule && Idled(active, Total(turns), Run(active, turns).after)
  {
    var start := New(schedule, localPeer);
    RunKeepsTimers(start, earlier);
    ActivityRestarts(Run(start, earlier).after, activity);
    IdlingResets(TakeTurn(Run(start, earlier).after, activity).after, turns);
  }
}
