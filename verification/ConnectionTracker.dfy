/** The connection tracker object, which updates its list of connections in place. */
module ConnectionObject {
  import opened Base
  import opened Connections
  import C = Connections

  class ConnectionTracker {
    const self: PeerId
    var connections: seq<Connection>
    var highest: map<PeerId, nat>

    function View(): Tracker
      reads this
    {
      Tracker(self, connections, highest)
    }

    constructor (self: PeerId)
      ensures View() == Tracker(self, [], map[])
    {
      this.self := self;
      connections := [];
      highest := map[];
    }

    /** Position of the first connection of an endpoint. */
    method Find(e: Endpoint) returns (at: Option<nat>)
      ensures at.None? <==> e !in Endpoints(connections)
      ensures at.Some? ==>
        && at.value < |connections|
        && Lookup(connections, e) == Some(connections[at.value])
        && FirstAt(connections, e, at.value)
    {
      for i := 0 to |connections|
        invariant forall j | 0 <= j < i :: connections[j].endpoint != e
        invariant Lookup(connections, e) == Lookup(connections[i..], e)
      {
        assert connections[i..][1..] == connections[i + 1..];
        if connections[i].endpoint == e { return Some(i); }
      }
      return None;
    }

    method RecordEndpoint(e: Endpoint, d: Direction)
      modifies this`connections
      ensures View() == C.RecordEndpoint(old(View()), e, d)
    {
      var at := Find(e);
      if at.Some? {
        SetDirectionAt(connections, e, at.value, d);
        connections := connections[at.value := connections[at.value].(direction := d)];
        return;
      }
      connections := connections + [Connection(e, d, None)];
    }

    method RemoveEndpoint(e: Endpoint) returns (removal: Removal)
      modifies this`connections
      ensures Removed(View(), removal) == C.RemoveEndpoint(old(View()), e)
    {
      var at := Find(e);
      if at.None? { return UnknownEndpoint; }
      var peer := connections[at.value].peer;
      DropAt(connections, e, at.value);
      connections := connections[..at.value] + connections[at.value + 1..];
      match peer
      case None => return UnauthenticatedEndpoint;
      case Some(p) =>
        var connected := PeerIsConnected(p);
        return if connected then PeerStillConnected(p) else PeerDisconnected(p);
    }

    method PeerIsConnected(p: PeerId) returns (connected: bool)
      ensures connected <==> p in Online(connections)
    {
      for i := 0 to |connections|
        invariant p in Online(connections) <==> p in Online(connections[i..])
      {
        assert connections[i..][1..] == connections[i + 1..];
        if connections[i].peer == Some(p) { return true; }
      }
      return false;
    }

    method AuthenticatePeer(e: Endpoint, p: PeerId) returns (result: AuthenticationResult, toClose: seq<Endpoint>)
      modifies this`connections
      ensures Authentication(View(), result, toClose) == C.AuthenticatePeer(old(View()), e, p)
    {
      if p == self {
        var _ := RemoveEndpoint(e);
        return RejectedSelf(p), [e];
      }
      var hadPeer := PeerIsConnected(p);
      var at := Find(e);
      if at.None? { return RejectedUnknownEndpoint(p), [e]; }
      SetPeerAt(connections, e, at.value, p);
      connections := connections[at.value := connections[at.value].(peer := Some(p))];
      toClose := CollapseDuplicates(p);
      var retained := PeerOf(connections, e) == Some(p);
      result := if !hadPeer && retained then AuthenticatedNewPeer(p) else AuthenticatedExistingPeer(p);
    }

    /** Keeps one connection of the peer, walking over the list once. */
    method CollapseDuplicates(p: PeerId) returns (removed: seq<Endpoint>)
      modifies this`connections
      ensures var keep := EndpointToKeep(self, old(connections), p);
        if keep.None? then connections == old(connections) && removed == []
        else connections == Retain(old(connections), p, keep.value)
             && removed == Discarded(old(connections), p, keep.value)
    {
      var keep := EndpointToKeep(self, connections, p);
      removed := [];
      if keep.None? { return; }
      var kept: seq<Connection> := [];
      for i := 0 to |connections|
        invariant connections == old(connections)
        invariant kept + Retain(connections[i..], p, keep.value) == Retain(connections, p, keep.value)
        invariant removed + Discarded(connections[i..], p, keep.value) == Discarded(connections, p, keep.value)
      {
        assert connections[i..][1..] == connections[i + 1..];
        if Duplicate(connections[i], p, keep.value) {
          removed := removed + [connections[i].endpoint];
        } else {
          kept := kept + [connections[i]];
        }
      }
      connections := kept;
    }

    method AcceptInboundEvent(e: Endpoint, sender: PeerId, sequence: nat) returns (acceptance: Acceptance)
      modifies this`highest
      ensures Inbound(View(), acceptance) == C.AcceptInboundEvent(old(View()), e, sender, sequence)
    {
      var peer := PeerOf(connections, e);
      if peer.None? { return FromUnauthenticated; }
      if peer.value != sender { return SenderMismatch(peer.value); }
      if peer.value in highest && sequence <= highest[peer.value] { return Replayed(highest[peer.value]); }
      highest := highest[peer.value := sequence];
      return Accepted;
    }
  }
}
