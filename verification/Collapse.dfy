/** Two machines that dial each other keep the same one of their two connections. */
module Collapse {
  import opened Base
  import opened Connections
  import opened Delivery

  /** Both ends prefer the connection that the lower peer id opened. */
  lemma EndsAgreeOnDirection(a: PeerId, b: PeerId)
    requires a != b
    ensures DesiredDirection(a, b) == Outgoing <==> DesiredDirection(b, a) == Incoming
    ensures DesiredDirection(a, b) == Outgoing <==> a < b
  {
  }

  /** At one machine: `keep` runs in the preferred direction towards the peer. */
  predicate Preferred(t: Tracker, p: PeerId, keep: Endpoint) {
    Lookup(t.connections, keep).Some? && Lookup(t.connections, keep).value.direction == DesiredDirection(t.self, p)
  }

  /** Every other connection of the peer runs in the other direction. */
  predicate OthersOpposite(cs: seq<Connection>, p: PeerId, keep: Endpoint, desired: Direction) {
    cs == [] ||
    (&& (cs[0].peer == Some(p) && cs[0].endpoint != keep ==> cs[0].direction != desired)
     && OthersOpposite(cs[1..], p, keep, desired))
  }

  /** What may happen at a machine while the kept connection stays up and only the other one duplicates it. */
  predicate Fair(t: Tracker, e: Event, p: PeerId, keep: Endpoint) {
    match e
    case Recorded(endpoint, direction) =>
      && (endpoint == keep ==> direction == DesiredDirection(t.self, p))
      && (PeerOf(t.connections, endpoint) == Some(p) && endpoint != keep ==> direction != DesiredDirection(t.self, p))
    case Hello(endpoint, q) =>
      if endpoint == keep then q == p
      else q == p && endpoint in Endpoints(t.connections) ==>
        Lookup(t.connections, endpoint).value.direction != DesiredDirection(t.self, p)
    case Lost(endpoint) => endpoint != keep
    case Arrived(_, _, _) => true
  }

  lemma {:induction false} LookupAfterSetDirection(cs: seq<Connection>, e: Endpoint, d: Direction, keep: Endpoint)
    ensures Lookup(SetDirection(cs, e, d), keep)
         == if keep == e && Lookup(cs, keep).Some? then Some(Lookup(cs, keep).value.(direction := d)) else Lookup(cs, keep)
  {
    if cs != [] { LookupAfterSetDirection(cs[1..], e, d, keep); }
  }

  lemma {:induction false} LookupAfterAppend(cs: seq<Connection>, c: Connection, keep: Endpoint)
    requires keep in Endpoints(cs)
    ensures Lookup(cs + [c], keep) == Lookup(cs, keep)
  {
    assert (cs + [c])[0] == cs[0];
    assert (cs + [c])[1..] == cs[1..] + [c];
    if cs[0].endpoint != keep { LookupAfterAppend(cs[1..], c, keep); }
  }

  lemma {:induction false} LookupAfterSetPeer(cs: seq<Connection>, e: Endpoint, p: PeerId, keep: Endpoint)
    ensures Lookup(SetPeer(cs, e, p), keep)
         == if keep == e && Lookup(cs, keep).Some? then Some(Lookup(cs, keep).value.(peer := Some(p))) else Lookup(cs, keep)
  {
    if cs != [] { LookupAfterSetPeer(cs[1..], e, p, keep); }
  }

  lemma {:induction false} LookupAfterDrop(cs: seq<Connection>, e: Endpoint, keep: Endpoint)
    requires keep != e
    ensures Lookup(Drop(cs, e), keep) == Lookup(cs, keep)
  {
    if cs != [] { LookupAfterDrop(cs[1..], e, keep); }
  }

  lemma {:induction false} LookupAfterRetain(cs: seq<Connection>, p: PeerId, target: Endpoint, keep: Endpoint)
    requires Lookup(cs, keep).Some? && !Duplicate(Lookup(cs, keep).value, p, target)
    ensures Lookup(Retain(cs, p, target), keep) == Lookup(cs, keep)
  {
    if cs[0].endpoint != keep { LookupAfterRetain(cs[1..], p, target, keep); }
  }

  lemma {:induction false} NotDiscarded(cs: seq<Connection>, p: PeerId, target: Endpoint, keep: Endpoint)
    requires UniqueEndpoints(cs)
    requires Lookup(cs, keep).Some? ==> !Duplicate(Lookup(cs, keep).value, p, target)
    ensures keep !in Discarded(cs, p, target)
  {
    if cs != [] {
      if cs[0].endpoint == keep { NoSuchEndpoint(cs[1..], p, target, keep); }
      else { NotDiscarded(cs[1..], p, target, keep); }
    }
  }

  lemma {:induction false} NoSuchEndpoint(cs: seq<Connection>, p: PeerId, target: Endpoint, keep: Endpoint)
    requires keep !in Endpoints(cs)
    ensures keep !in Discarded(cs, p, target)
  {
    if cs != [] { NoSuchEndpoint(cs[1..], p, target, keep); }
  }

  predicate UniqueEndpoints(cs: seq<Connection>) {
    cs == [] || (cs[0].endpoint !in Endpoints(cs[1..]) && UniqueEndpoints(cs[1..]))
  }

  lemma {:induction false} SetPeerUnique(cs: seq<Connection>, e: Endpoint, p: PeerId)
    requires UniqueEndpoints(cs)
    ensures UniqueEndpoints(SetPeer(cs, e, p)) && Endpoints(SetPeer(cs, e, p)) == Endpoints(cs)
  {
    if cs != [] { SetPeerUnique(cs[1..], e, p); }
  }

  /** If the kept connection belongs to the peer, it is the first in the preferred direction. */
  lemma {:induction false} KeptIsFirst(cs: seq<Connection>, p: PeerId, keep: Endpoint, desired: Direction)
    requires UniqueEndpoints(cs) && OthersOpposite(cs, p, keep, desired)
    requires Lookup(cs, keep).Some? && Lookup(cs, keep).value.direction == desired
    requires PeerOf(cs, keep) == Some(p)
    ensures FirstOf(cs, p, desired) == Some(keep)
  {
    if cs[0].endpoint != keep { KeptIsFirst(cs[1..], p, keep, desired); }
  }

  lemma {:induction false} OppositeAfterSetPeer(
    cs: seq<Connection>, e: Endpoint, p: PeerId, q: PeerId, keep: Endpoint, desired: Direction)
    requires OthersOpposite(cs, p, keep, desired)
    requires q == p && e != keep && Lookup(cs, e).Some? ==> Lookup(cs, e).value.direction != desired
    ensures OthersOpposite(SetPeer(cs, e, q), p, keep, desired)
  {
    if cs != [] && cs[0].endpoint != e { OppositeAfterSetPeer(cs[1..], e, p, q, keep, desired); }
  }

  lemma {:induction false} OppositeAfterSetDirection(
    cs: seq<Connection>, e: Endpoint, d: Direction, p: PeerId, keep: Endpoint, desired: Direction)
    requires OthersOpposite(cs, p, keep, desired)
    requires PeerOf(cs, e) == Some(p) && e != keep ==> d != desired
    ensures OthersOpposite(SetDirection(cs, e, d), p, keep, desired)
  {
    if cs != [] && cs[0].endpoint != e { OppositeAfterSetDirection(cs[1..], e, d, p, keep, desired); }
  }

  lemma {:induction false} OppositeAfterAppend(
    cs: seq<Connection>, c: Connection, p: PeerId, keep: Endpoint, desired: Direction)
    requires OthersOpposite(cs, p, keep, desired) && c.peer.None?
    ensures OthersOpposite(cs + [c], p, keep, desired)
  {
    if cs == [] {
      assert cs + [c] == [c];
    } else {
      assert (cs + [c])[1..] == cs[1..] + [c];
      OppositeAfterAppend(cs[1..], c, p, keep, desired);
    }
  }

  lemma {:induction false} OppositeAfterDrop(
    cs: seq<Connection>, e: Endpoint, p: PeerId, keep: Endpoint, desired: Direction)
    requires OthersOpposite(cs, p, keep, desired)
    ensures OthersOpposite(Drop(cs, e), p, keep, desired)
  {
    if cs != [] && cs[0].endpoint != e { OppositeAfterDrop(cs[1..], e, p, keep, desired); }
  }

  lemma {:induction false} OppositeAfterRetain(
    cs: seq<Connection>, q: PeerId, target: Endpoint, p: PeerId, keep: Endpoint, desired: Direction)
    requires OthersOpposite(cs, p, keep, desired)
    ensures OthersOpposite(Retain(cs, q, target), p, keep, desired)
  {
    if cs != [] { OppositeAfterRetain(cs[1..], q, target, p, keep, desired); }
  }

  /** The state of one machine with respect to the connection both should keep. */
  predicate Keeping(t: Tracker, p: PeerId, keep: Endpoint) {
    && p != t.self && UniqueEndpoints(t.connections) && Preferred(t, p, keep)
    && OthersOpposite(t.connections, p, keep, DesiredDirection(t.self, p))
    && (PeerOf(t.connections, keep) == None || PeerOf(t.connections, keep) == Some(p))
  }

  /** Endpoints an event makes the machine close. */
  function ClosedBy(t: Tracker, e: Event): seq<Endpoint> {
    if e.Hello? then AuthenticatePeer(t, e.endpoint, e.peer).toClose else []
  }

  lemma {:induction false} UniqueAfterDrop(cs: seq<Connection>, e: Endpoint)
    requires UniqueEndpoints(cs)
    ensures UniqueEndpoints(Drop(cs, e)) && Endpoints(Drop(cs, e)) <= Endpoints(cs)
  {
    if cs != [] { UniqueAfterDrop(cs[1..], e); }
  }

  lemma {:induction false} UniqueAfterRetain(cs: seq<Connection>, p: PeerId, target: Endpoint)
    requires UniqueEndpoints(cs)
    ensures UniqueEndpoints(Retain(cs, p, target)) && Endpoints(Retain(cs, p, target)) <= Endpoints(cs)
  {
    if cs != [] { UniqueAfterRetain(cs[1..], p, target); }
  }

  lemma {:induction false} UniqueAfterRecord(cs: seq<Connection>, e: Endpoint, d: Direction)
    requires UniqueEndpoints(cs)
    ensures UniqueEndpoints(SetDirection(cs, e, d)) && Endpoints(SetDirection(cs, e, d)) == Endpoints(cs)
    ensures e !in Endpoints(cs) ==>
      UniqueEndpoints(cs + [Connection(e, d, None)])
      && Endpoints(cs + [Connection(e, d, None)]) == Endpoints(cs) + {e}
  {
    var c := Connection(e, d, None);
    if cs == [] {
      assert cs + [c] == [c];
    } else {
      assert (cs + [c])[1..] == cs[1..] + [c];
      UniqueAfterRecord(cs[1..], e, d);
    }
  }

  predicate HelloKept(t: Tracker, e: Endpoint, q: PeerId, p: PeerId, keep: Endpoint) {
    var a := AuthenticatePeer(t, e, q);
    && Keeping(a.after, p, keep) && keep !in a.toClose
    && (e == keep || PeerOf(t.connections, keep) == Some(p) ==> PeerOf(a.after.connections, keep) == Some(p))
  }

  lemma SelfHelloKeeps(t: Tracker, e: Endpoint, p: PeerId, keep: Endpoint)
    requires Keeping(t, p, keep) && Fair(t, Hello(e, t.self), p, keep)
    ensures HelloKept(t, e, t.self, p, keep)
  {
    UniqueAfterDrop(t.connections, e);
    LookupAfterDrop(t.connections, e, keep);
    OppositeAfterDrop(t.connections, e, p, keep, DesiredDirection(t.self, p));
  }

  /** Collapsing the connections of any peer leaves the preferred one alone. */
  lemma CollapseSpares(self: PeerId, cs: seq<Connection>, q: PeerId, p: PeerId, keep: Endpoint, target: Endpoint)
    requires UniqueEndpoints(cs) && OthersOpposite(cs, p, keep, DesiredDirection(self, p))
    requires Lookup(cs, keep).Some? && Lookup(cs, keep).value.direction == DesiredDirection(self, p)
    requires PeerOf(cs, keep) == None || PeerOf(cs, keep) == Some(p)
    requires EndpointToKeep(self, cs, q) == Some(target)
    ensures UniqueEndpoints(Retain(cs, q, target)) && Lookup(Retain(cs, q, target), keep) == Lookup(cs, keep)
    ensures OthersOpposite(Retain(cs, q, target), p, keep, DesiredDirection(self, p))
    ensures keep !in Discarded(cs, q, target)
  {
    if PeerOf(cs, keep) == Some(q) { KeptIsFirst(cs, p, keep, DesiredDirection(self, p)); }
    UniqueAfterRetain(cs, q, target);
    LookupAfterRetain(cs, q, target, keep);
    OppositeAfterRetain(cs, q, target, p, keep, DesiredDirection(self, p));
    NotDiscarded(cs, q, target, keep);
  }

  lemma HelloKeeps(t: Tracker, e: Endpoint, q: PeerId, p: PeerId, keep: Endpoint)
    requires Keeping(t, p, keep) && Fair(t, Hello(e, q), p, keep)
    ensures HelloKept(t, e, q, p, keep)
  {
    if q == t.self {
      SelfHelloKeeps(t, e, p, keep);
    } else if e in Endpoints(t.connections) {
      var named := SetPeer(t.connections, e, q);
      SetPeerUnique(t.connections, e, q);
      LookupAfterSetPeer(t.connections, e, q, keep);
      OppositeAfterSetPeer(t.connections, e, p, q, keep, DesiredDirection(t.self, p));
      var target := EndpointToKeep(t.self, named, q);
      if target.Some? { CollapseSpares(t.self, named, q, p, keep, target.value); }
    }
  }

  lemma EventKeeps(t: Tracker, e: Event, p: PeerId, keep: Endpoint)
    requires Keeping(t, p, keep) && Fair(t, e, p, keep)
    ensures Keeping(Apply(t, e), p, keep) && keep !in ClosedBy(t, e)
    ensures e == Hello(keep, p) || PeerOf(t.connections, keep) == Some(p) ==>
      PeerOf(Apply(t, e).connections, keep) == Some(p)
  {
    var desired := DesiredDirection(t.self, p);
    match e
    case Recorded(endpoint, d) =>
      UniqueAfterRecord(t.connections, endpoint, d);
      if endpoint in Endpoints(t.connections) {
        LookupAfterSetDirection(t.connections, endpoint, d, keep);
        OppositeAfterSetDirection(t.connections, endpoint, d, p, keep, desired);
      } else {
        LookupAfterAppend(t.connections, Connection(endpoint, d, None), keep);
        OppositeAfterAppend(t.connections, Connection(endpoint, d, None), p, keep, desired);
      }
    case Hello(endpoint, q) => HelloKeeps(t, endpoint, q, p, keep);
    case Lost(endpoint) =>
      UniqueAfterDrop(t.connections, endpoint);
      LookupAfterDrop(t.connections, endpoint, keep);
      OppositeAfterDrop(t.connections, endpoint, p, keep, desired);
    case Arrived(_, _, _) =>
  }

  predicate AllFair(t: Tracker, events: seq<Event>, p: PeerId, keep: Endpoint)
    decreases |events|
  {
    events == [] || (Fair(t, events[0], p, keep) && AllFair(Apply(t, events[0]), events[1..], p, keep))
  }

  function AllClosed(t: Tracker, events: seq<Event>): seq<Endpoint>
    decreases |events|
  {
    if events == [] then [] else ClosedBy(t, events[0]) + AllClosed(Apply(t, events[0]), events[1..])
  }

  /** One machine never closes the preferred connection, and holds it once its hello has arrived. */
  lemma {:induction false} PreferredConnectionSurvives(t: Tracker, events: seq<Event>, p: PeerId, keep: Endpoint)
    requires Keeping(t, p, keep) && AllFair(t, events, p, keep)
    ensures Keeping(Run(t, events), p, keep) && keep !in AllClosed(t, events)
    ensures Hello(keep, p) in events || PeerOf(t.connections, keep) == Some(p) ==>
      PeerOf(Run(t, events).connections, keep) == Some(p)
    decreases |events|
  {
    if events != [] {
      EventKeeps(t, events[0], p, keep);
      PreferredConnectionSurvives(Apply(t, events[0]), events[1..], p, keep);
    }
  }

  /**
   * Both machines, one connection opened by each: under every interleaving of events on the two
   * sides the one that the lower id opened is closed by neither, and both hold it once both have
   * heard its hello.
   */
  lemma BothEndsKeepLowersConnection(
    lower: Tracker, higher: Tracker, eventsLower: seq<Event>, eventsHigher: seq<Event>,
    dialed: Endpoint, accepted: Endpoint)
    requires lower.self < higher.self
    requires UniqueEndpoints(lower.connections) && UniqueEndpoints(higher.connections)
    // The connection the lower id opened, as each side has recorded it, not yet authenticated.
    requires Lookup(lower.connections, dialed) == Some(Connection(dialed, Outgoing, None))
    requires Lookup(higher.connections, accepted) == Some(Connection(accepted, Incoming, None))
    requires OthersOpposite(lower.connections, higher.self, dialed, Outgoing)
    requires OthersOpposite(higher.connections, lower.self, accepted, Incoming)
    requires AllFair(lower, eventsLower, higher.self, dialed)
    requires AllFair(higher, eventsHigher, lower.self, accepted)
    ensures dialed !in AllClosed(lower, eventsLower) && accepted !in AllClosed(higher, eventsHigher)
    ensures dialed in Endpoints(Run(lower, eventsLower).connections)
    ensures accepted in Endpoints(Run(higher, eventsHigher).connections)
    ensures Hello(dialed, higher.self) in eventsLower && Hello(accepted, lower.self) in eventsHigher ==>
      && PeerOf(Run(lower, eventsLower).connections, dialed) == Some(higher.self)
      && PeerOf(Run(higher, eventsHigher).connections, accepted) == Some(lower.self)
  {
    EndsAgreeOnDirection(lower.self, higher.self);
    PreferredConnectionSurvives(lower, eventsLower, higher.self, dialed);
    PreferredConnectionSurvives(higher, eventsHigher, lower.self, accepted);
  }
}
