/** Exactly-once acceptance of events, across disconnects and reconnects. */
module Delivery {
  import opened Base
  import opened Connections

  /** What happens to a tracker over its life. */
  datatype Event =
    | Recorded(endpoint: Endpoint, direction: Direction)
    | Hello(endpoint: Endpoint, peer: PeerId)
    | Lost(endpoint: Endpoint)
    | Arrived(endpoint: Endpoint, sender: PeerId, sequence: nat)

  function Apply(t: Tracker, e: Event): Tracker {
    match e
    case Recorded(endpoint, direction) => RecordEndpoint(t, endpoint, direction)
    case Hello(endpoint, peer) => AuthenticatePeer(t, endpoint, peer).after
    case Lost(endpoint) => RemoveEndpoint(t, endpoint).after
    case Arrived(endpoint, sender, sequence) => AcceptInboundEvent(t, endpoint, sender, sequence).after
  }

  predicate AcceptedBy(t: Tracker, e: Event) {
    e.Arrived? && AcceptInboundEvent(t, e.endpoint, e.sender, e.sequence).acceptance == Accepted
  }

  /** The endpoint is authenticated as the frame's sender. */
  predicate Attributed(t: Tracker, e: Event) { e.Arrived? && PeerOf(t.connections, e.endpoint) == Some(e.sender) }

  function Run(t: Tracker, events: seq<Event>): Tracker
    decreases |events|
  {
    if events == [] then t else Run(Apply(t, events[0]), events[1..])
  }

  /** Sequences accepted from a peer in a run, in order. */
  function AcceptedFrom(t: Tracker, events: seq<Event>, p: PeerId): seq<nat>
    decreases |events|
  {
    if events == [] then []
    else
      (if AcceptedBy(t, events[0]) && events[0].sender == p then [events[0].sequence] else [])
      + AcceptedFrom(Apply(t, events[0]), events[1..], p)
  }

  predicate Increasing(xs: seq<nat>, above: Option<nat>) {
    xs == [] || ((above.Some? ==> above.value < xs[0]) && Increasing(xs[1..], Some(xs[0])))
  }

  function Highest(t: Tracker, p: PeerId): Option<nat> { if p in t.highest then Some(t.highest[p]) else None }

  function LastOr(xs: seq<nat>, start: Option<nat>): Option<nat> { if xs == [] then start else Some(xs[|xs| - 1]) }

  lemma OnlyAcceptanceMovesHighest(t: Tracker, e: Event, p: PeerId)
    ensures Highest(Apply(t, e), p)
         == if AcceptedBy(t, e) && e.sender == p then Some(e.sequence) else Highest(t, p)
  {
  }

  /** Over any life of the tracker, what it accepts from a peer strictly increases: nothing is taken twice. */
  lemma {:induction false} AcceptedOnce(t: Tracker, events: seq<Event>, p: PeerId)
    ensures Increasing(AcceptedFrom(t, events, p), Highest(t, p))
    ensures Highest(Run(t, events), p) == LastOr(AcceptedFrom(t, events, p), Highest(t, p))
    decreases |events|
  {
    if events != [] {
      var e := events[0];
      var rest := AcceptedFrom(Apply(t, e), events[1..], p);
      OnlyAcceptanceMovesHighest(t, e, p);
      AcceptedOnce(Apply(t, e), events[1..], p);
      if AcceptedBy(t, e) && e.sender == p {
        assert ([e.sequence] + rest)[1..] == rest;
      } else {
        assert [] + rest == rest;
      }
    }
  }

  lemma {:induction false} IncreasingBound(xs: seq<nat>, above: Option<nat>, i: nat)
    requires Increasing(xs, above) && i < |xs|
    ensures xs[i] <= xs[|xs| - 1] && (above.Some? ==> above.value < xs[i])
  {
    if i == 0 {
      if |xs| > 1 { IncreasingBound(xs[1..], Some(xs[0]), |xs| - 2); }
    } else {
      IncreasingBound(xs[1..], Some(xs[0]), i - 1);
    }
  }

  /**
   * After any life, a correctly attributed event is accepted exactly when its sequence exceeds
   * every sequence accepted from that peer before.
   */
  lemma AcceptedIffNewest(self: PeerId, events: seq<Event>, e: Event)
    requires Attributed(Run(Tracker(self, [], map[]), events), e)
    ensures AcceptedBy(Run(Tracker(self, [], map[]), events), e)
      <==> forall i | 0 <= i < |AcceptedFrom(Tracker(self, [], map[]), events, e.sender)| ::
             AcceptedFrom(Tracker(self, [], map[]), events, e.sender)[i] < e.sequence
  {
    var t := Tracker(self, [], map[]);
    var xs := AcceptedFrom(t, events, e.sender);
    AcceptedOnce(t, events, e.sender);
    assert Highest(Run(t, events), e.sender) == LastOr(xs, None);
    if AcceptedBy(Run(t, events), e) {
      forall i | 0 <= i < |xs| ensures xs[i] < e.sequence { IncreasingBound(xs, None, i); }
    }
  }

  /** Positions of the frames that get through, in order. */
  predicate Ascending(picked: seq<nat>, n: nat, from: nat) {
    picked == [] || (from <= picked[0] < n && Ascending(picked[1..], n, picked[0] + 1))
  }
}
