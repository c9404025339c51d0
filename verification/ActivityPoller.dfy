/** The poller object with its queue of events. */
module ActivityObject {
  import opened Base
  import opened RuntimeModel
  import opened ActivityModel
  import A = ActivityModel

  class ActivityPoller {
    const interval: nat
    var lastSampledAt: Option<nat>
    var events: seq<RuntimeEvent>

    function View(): Poller
      reads this
    {
      Poller(interval, lastSampledAt, events)
    }

    constructor (interval: nat)
      ensures View() == Poller(interval, None, [])
    {
      this.interval := interval;
      lastSampledAt := None;
      events := [];
    }

    method QueueEvent(e: RuntimeEvent)
      modifies this`events
      ensures View() == A.QueueEvent(old(View()), e)
    {
      events := events + [e];
    }

    method QueueSample(s: Sample) returns (state: ActivityState)
      modifies this
      ensures View() == A.QueueSample(old(View()), s)
      ensures state == Active <==> s.idleFor <= IDLE_THRESHOLD
    {
      state := StateFor(s.idleFor);
      var unobserved := UnobservedIdle(View(), s.at);
      lastSampledAt := Some(s.at);
      QueueEvent(WallClockElapsed(interval));
      if unobserved.Some? { QueueEvent(IdleElapsed(unobserved.value)); }
      if state == Active { QueueEvent(ActiveElapsed(interval)); } else { QueueEvent(IdleElapsed(interval)); }
    }

    /** Events come out in the order they were queued. */
    method NextEvent() returns (e: Option<RuntimeEvent>)
      modifies this`events
      ensures old(events) == (if e.Some? then [e.value] else []) + events
      ensures e.None? ==> old(events) == []
    {
      if events == [] { return None; }
      e := Some(events[0]);
      events := events[1..];
    }
  }
}
