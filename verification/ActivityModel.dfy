/** Turning periodic idle readings into elapsed active, idle and wall-clock time. */
module ActivityModel {
  import opened Base
  import opened RuntimeModel

  const IDLE_THRESHOLD: nat := 10_000_000_000

  datatype ActivityState = Active | Idle

  /** A reading: how long the user has been idle, and the wall clock when it was taken. */
  datatype Sample = Sample(idleFor: nat, at: nat)

  datatype Poller = Poller(interval: nat, lastSampledAt: Option<nat>, events: seq<RuntimeEvent>)

  function StateFor(idleFor: nat): ActivityState { if idleFor <= IDLE_THRESHOLD then Active else Idle }

  /** Time beyond one interval since the last reading, unless the clock went back. */
  function UnobservedIdle(p: Poller, at: nat): Option<nat> {
    if p.lastSampledAt.None? || at < p.lastSampledAt.value then None
    else if at - p.lastSampledAt.value <= p.interval then None
    else Some(at - p.lastSampledAt.value - p.interval)
  }

  function QueueEvent(p: Poller, e: RuntimeEvent): Poller { p.(events := p.events + [e]) }

  function SampleEvents(p: Poller, s: Sample): seq<RuntimeEvent> {
    var unobserved := UnobservedIdle(p, s.at);
    [WallClockElapsed(p.interval)]
    + (if unobserved.Some? then [IdleElapsed(unobserved.value)] else [])
    + [if StateFor(s.idleFor) == Active then ActiveElapsed(p.interval) else IdleElapsed(p.interval)]
  }

  function QueueSample(p: Poller, s: Sample): Poller {
    p.(lastSampledAt := Some(s.at), events := p.events + SampleEvents(p, s))
  }

  function QueueSamples(p: Poller, samples: seq<Sample>): Poller
    decreases |samples|
  {
    if samples == [] then p else QueueSamples(QueueSample(p, samples[0]), samples[1..])
  }

  // ----- when a break is over -----

  /** A monotonic and a wall-clock reading of the same moment. */
  datatype ObservedTime = ObservedTime(monotonic: nat, wall: nat)

  datatype BreakDeadline = BreakDeadline(endsAt: nat, duration: nat)

  function StartingAt(startedAt: nat, duration: nat): BreakDeadline { BreakDeadline(startedAt + duration, duration) }

  function RemainingAt(d: BreakDeadline, now: nat): nat { Min(SaturatingSub(d.endsAt, now), d.duration) }

  predicate FinishedAt(d: BreakDeadline, now: nat) { RemainingAt(d, now) == 0 }
}
