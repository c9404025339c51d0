/** Peer connections of one machine: who is authenticated where, and which sequences were accepted. */
module Connections {
  import opened Base

  type PeerId = nat
  type Endpoint = nat

  datatype Direction = Incoming | Outgoing

  datatype Connection = Connection(endpoint: Endpoint, direction: Direction, peer: Option<PeerId>)

  datatype Tracker = Tracker(self: PeerId, connections: seq<Connection>, highest: map<PeerId, nat>)

  datatype AuthenticationResult =
    | AuthenticatedNewPeer(peer: PeerId)
    | AuthenticatedExistingPeer(peer: PeerId)
    | RejectedSelf(peer: PeerId)
    | RejectedUnknownEndpoint(peer: PeerId)

  datatype Authentication = Authentication(after: Tracker, result: AuthenticationResult, toClose: seq<Endpoint>)

  datatype Removal =
    | PeerDisconnected(peer: PeerId)
    | PeerStillConnected(peer: PeerId)
    | UnauthenticatedEndpoint
    | UnknownEndpoint

  datatype Removed = Removed(after: Tracker, removal: Removal)

  datatype Acceptance =
    | Accepted
    | FromUnauthenticated
    | SenderMismatch(authenticated: PeerId)
    | Replayed(highestSeen: nat)

  datatype Inbound = Inbound(after: Tracker, acceptance: Acceptance)

  // ----- lists of connections -----

  function Endpoints(cs: seq<Connection>): set<Endpoint> {
    if cs == [] then {} else {cs[0].endpoint} + Endpoints(cs[1..])
  }

  /** Peers with an authenticated connection. */
  function Online(cs: seq<Connection>): set<PeerId> {
    if cs == [] then {}
    else (if cs[0].peer.Some? then {cs[0].peer.value} else {}) + Online(cs[1..])
  }

  function Lookup(cs: seq<Connection>, e: Endpoint): (c: Option<Connection>)
    ensures c.Some? <==> e in Endpoints(cs)
    ensures c.Some? ==> c.value in cs && c.value.endpoint == e
  {
    if cs == [] then None else if cs[0].endpoint == e then Some(cs[0]) else Lookup(cs[1..], e)
  }

  function PeerOf(cs: seq<Connection>, e: Endpoint): Option<PeerId> {
    if Lookup(cs, e).None? then None else Lookup(cs, e).value.peer
  }

  function SetDirection(cs: seq<Connection>, e: Endpoint, d: Direction): seq<Connection> {
    if cs == [] then []
    else if cs[0].endpoint == e then [cs[0].(direction := d)] + cs[1..]
    else [cs[0]] + SetDirection(cs[1..], e, d)
  }

  function SetPeer(cs: seq<Connection>, e: Endpoint, p: PeerId): seq<Connection> {
    if cs == [] then []
    else if cs[0].endpoint == e then [cs[0].(peer := Some(p))] + cs[1..]
    else [cs[0]] + SetPeer(cs[1..], e, p)
  }

  function Drop(cs: seq<Connection>, e: Endpoint): seq<Connection> {
    if cs == [] then []
    else if cs[0].endpoint == e then cs[1..]
    else [cs[0]] + Drop(cs[1..], e)
  }

  /** The first connection of a peer in a given direction. */
  function FirstOf(cs: seq<Connection>, p: PeerId, d: Direction): Option<Endpoint> {
    if cs == [] then None
    else if cs[0].peer == Some(p) && cs[0].direction == d then Some(cs[0].endpoint)
    else FirstOf(cs[1..], p, d)
  }

  function EndpointForPeer(cs: seq<Connection>, p: PeerId): (e: Option<Endpoint>)
    ensures e.Some? <==> p in Online(cs)
    ensures e.Some? ==> exists c | c in cs :: c.endpoint == e.value && c.peer == Some(p)
  {
    if cs == [] then None
    else if cs[0].peer == Some(p) then Some(cs[0].endpoint)
    else EndpointForPeer(cs[1..], p)
  }

  function AuthenticatedEndpoints(cs: seq<Connection>): seq<Endpoint> {
    if cs == [] then []
    else (if cs[0].peer.Some? then [cs[0].endpoint] else []) + AuthenticatedEndpoints(cs[1..])
  }

  /** The lower id keeps the connection it opened, the higher id the one it accepted. */
  function DesiredDirection(self: PeerId, p: PeerId): Direction {
    if self < p then Outgoing else Incoming
  }

  function EndpointToKeep(self: PeerId, cs: seq<Connection>, p: PeerId): Option<Endpoint> {
    var desired := FirstOf(cs, p, DesiredDirection(self, p));
    if desired.Some? then desired else EndpointForPeer(cs, p)
  }

  predicate Duplicate(c: Connection, p: PeerId, keep: Endpoint) { c.peer == Some(p) && c.endpoint != keep }

  function Retain(cs: seq<Connection>, p: PeerId, keep: Endpoint): seq<Connection> {
    if cs == [] then []
    else if Duplicate(cs[0], p, keep) then Retain(cs[1..], p, keep)
    else [cs[0]] + Retain(cs[1..], p, keep)
  }

  function Discarded(cs: seq<Connection>, p: PeerId, keep: Endpoint): seq<Endpoint> {
    if cs == [] then []
    else if Duplicate(cs[0], p, keep) then [cs[0].endpoint] + Discarded(cs[1..], p, keep)
    else Discarded(cs[1..], p, keep)
  }

  // ----- the tracker's operations -----

  function RecordEndpoint(t: Tracker, e: Endpoint, d: Direction): Tracker {
    t.(connections :=
         if e in Endpoints(t.connections) then SetDirection(t.connections, e, d)
         else t.connections + [Connection(e, d, None)])
  }

  function RemoveEndpoint(t: Tracker, e: Endpoint): Removed {
    var found := Lookup(t.connections, e);
    if found.None? then Removed(t, UnknownEndpoint)
    else
      var rest := Drop(t.connections, e);
      Removed(t.(connections := rest),
              match found.value.peer
              case None => UnauthenticatedEndpoint
              case Some(p) => if p in Online(rest) then PeerStillConnected(p) else PeerDisconnected(p))
  }

  /** After a hello the peer keeps one connection; any other of its connections is to be closed. */
  function AuthenticatePeer(t: Tracker, e: Endpoint, p: PeerId): Authentication {
    if p == t.self then Authentication(RemoveEndpoint(t, e).after, RejectedSelf(p), [e])
    else if e !in Endpoints(t.connections) then Authentication(t, RejectedUnknownEndpoint(p), [e])
    else
      var named := SetPeer(t.connections, e, p);
      var keep := EndpointToKeep(t.self, named, p);
      var kept := if keep.Some? then Retain(named, p, keep.value) else named;
      var closed := if keep.Some? then Discarded(named, p, keep.value) else [];
      Authentication(
        t.(connections := kept),
        if p !in Online(t.connections) && PeerOf(kept, e) == Some(p) then AuthenticatedNewPeer(p)
        else AuthenticatedExistingPeer(p),
        closed)
  }

  function AcceptInboundEvent(t: Tracker, e: Endpoint, sender: PeerId, sequence: nat): Inbound {
    match PeerOf(t.connections, e)
    case None => Inbound(t, FromUnauthenticated)
    case Some(p) =>
      if p != sender then Inbound(t, SenderMismatch(p))
      else if p in t.highest && sequence <= t.highest[p] then Inbound(t, Replayed(t.highest[p]))
      else Inbound(t.(highest := t.highest[p := sequence]), Accepted)
  }

  predicate FirstAt(cs: seq<Connection>, e: Endpoint, i: nat) {
    i < |cs| && cs[i].endpoint == e && forall j | 0 <= j < i :: cs[j].endpoint != e
  }

  /** Changing a list at the first position of an endpoint is what the specification functions do. */
  lemma {:induction false} SetDirectionAt(cs: seq<Connection>, e: Endpoint, i: nat, d: Direction)
    requires FirstAt(cs, e, i)
    ensures SetDirection(cs, e, d) == cs[i := cs[i].(direction := d)]
  {
    if i > 0 {
      SetDirectionAt(cs[1..], e, i - 1, d);
    }
  }

  lemma {:induction false} SetPeerAt(cs: seq<Connection>, e: Endpoint, i: nat, p: PeerId)
    requires FirstAt(cs, e, i)
    ensures SetPeer(cs, e, p) == cs[i := cs[i].(peer := Some(p))]
  {
    if i > 0 {
      SetPeerAt(cs[1..], e, i - 1, p);
    }
  }

  lemma {:induction false} DropAt(cs: seq<Connection>, e: Endpoint, i: nat)
    requires FirstAt(cs, e, i)
    ensures Drop(cs, e) == cs[..i] + cs[i + 1..]
  {
    if i > 0 {
      DropAt(cs[1..], e, i - 1);
    }
  }
}
