/** The shape every reachable connection list has, and what each operation does to who is online. */
module TrackerInvariant {
  import opened Base
  import opened Connections

  /** Endpoints are unique, and each peer is authenticated on at most one of them. */
  predicate OneEach(cs: seq<Connection>) {
    cs == [] ||
    (&& cs[0].endpoint !in Endpoints(cs[1..])
     && (cs[0].peer.Some? ==> cs[0].peer.value !in Online(cs[1..]))
     && OneEach(cs[1..]))
  }

  predicate Sound(t: Tracker) { OneEach(t.connections) && t.self !in Online(t.connections) }

  /** As `OneEach`, but one peer may for a moment be authenticated more than once. */
  predicate OneEachBut(cs: seq<Connection>, p: PeerId) {
    cs == [] ||
    (&& cs[0].endpoint !in Endpoints(cs[1..])
     && (cs[0].peer.Some? && cs[0].peer.value != p ==> cs[0].peer.value !in Online(cs[1..]))
     && OneEachBut(cs[1..], p))
  }

  lemma {:induction false} WeakenOneEach(cs: seq<Connection>, p: PeerId)
    requires OneEach(cs)
    ensures OneEachBut(cs, p)
  {
    if cs != [] { WeakenOneEach(cs[1..], p); }
  }

  lemma {:induction false} LookupOnline(cs: seq<Connection>, e: Endpoint)
    ensures PeerOf(cs, e).Some? ==> PeerOf(cs, e).value in Online(cs)
  {
    if cs != [] { LookupOnline(cs[1..], e); }
  }

  lemma {:induction false} SetDirectionKeeps(cs: seq<Connection>, e: Endpoint, d: Direction)
    requires OneEach(cs)
    ensures OneEach(SetDirection(cs, e, d))
    ensures Endpoints(SetDirection(cs, e, d)) == Endpoints(cs) && Online(SetDirection(cs, e, d)) == Online(cs)
  {
    if cs != [] { SetDirectionKeeps(cs[1..], e, d); }
  }

  lemma {:induction false} AppendKeeps(cs: seq<Connection>, c: Connection)
    requires OneEach(cs) && c.endpoint !in Endpoints(cs) && c.peer.None?
    ensures OneEach(cs + [c]) && Online(cs + [c]) == Online(cs)
    ensures Endpoints(cs + [c]) == Endpoints(cs) + {c.endpoint}
  {
    if cs == [] {
      assert cs + [c] == [c];
    } else {
      assert (cs + [c])[1..] == cs[1..] + [c];
      AppendKeeps(cs[1..], c);
    }
  }

  lemma {:induction false} DropKeeps(cs: seq<Connection>, e: Endpoint)
    requires OneEach(cs)
    ensures OneEach(Drop(cs, e)) && Endpoints(Drop(cs, e)) == Endpoints(cs) - {e}
    ensures Online(Drop(cs, e))
         == if PeerOf(cs, e).Some? then Online(cs) - {PeerOf(cs, e).value} else Online(cs)
  {
    if cs != [] {
      DropKeeps(cs[1..], e);
      LookupOnline(cs[1..], e);
      if cs[0].endpoint == e {
        assert Endpoints(cs[1..]) == Endpoints(cs) - {e};
      }
    }
  }

  /** Naming the peer of an endpoint adds that peer, and nobody goes offline unless the endpoint had another. */
  lemma {:induction false} SetPeerKeeps(cs: seq<Connection>, e: Endpoint, p: PeerId)
    requires OneEach(cs) && e in Endpoints(cs)
    ensures OneEachBut(SetPeer(cs, e, p), p) && Endpoints(SetPeer(cs, e, p)) == Endpoints(cs)
    ensures p in Online(SetPeer(cs, e, p)) && Online(SetPeer(cs, e, p)) <= Online(cs) + {p}
    ensures PeerOf(cs, e).None? || PeerOf(cs, e) == Some(p) ==> Online(cs) <= Online(SetPeer(cs, e, p))
  {
    WeakenOneEach(cs, p);
    if cs[0].endpoint == e {
      assert SetPeer(cs, e, p) == [cs[0].(peer := Some(p))] + cs[1..];
    } else {
      SetPeerKeeps(cs[1..], e, p);
    }
  }

  /** Giving an endpoint to another peer takes the old one offline. */
  lemma {:induction false} SetPeerRebinds(cs: seq<Connection>, e: Endpoint, p: PeerId, q: PeerId)
    requires OneEach(cs) && e in Endpoints(cs) && PeerOf(cs, e) == Some(q) && p != q
    ensures q !in Online(SetPeer(cs, e, p))
  {
    if cs[0].endpoint != e {
      SetPeerRebinds(cs[1..], e, p, q);
      LookupOnline(cs[1..], e);
    }
  }

  lemma {:induction false} RetainAtMost(cs: seq<Connection>, p: PeerId, keep: Endpoint)
    ensures Online(Retain(cs, p, keep)) <= Online(cs) && Endpoints(Retain(cs, p, keep)) <= Endpoints(cs)
  {
    if cs != [] { RetainAtMost(cs[1..], p, keep); }
  }

  predicate HeldAt(cs: seq<Connection>, p: PeerId, keep: Endpoint) { PeerOf(cs, keep) == Some(p) }

  lemma {:induction false} NotHeld(cs: seq<Connection>, p: PeerId, keep: Endpoint)
    requires OneEachBut(cs, p) && keep !in Endpoints(cs)
    ensures OneEach(Retain(cs, p, keep)) && Online(Retain(cs, p, keep)) == Online(cs) - {p}
  {
    if cs != [] {
      NotHeld(cs[1..], p, keep);
      RetainAtMost(cs[1..], p, keep);
    }
  }

  /** Collapsing onto one connection of the peer restores uniqueness and takes nobody offline. */
  lemma {:induction false} RetainKeeps(cs: seq<Connection>, p: PeerId, keep: Endpoint)
    requires OneEachBut(cs, p) && HeldAt(cs, p, keep)
    ensures OneEach(Retain(cs, p, keep)) && Online(Retain(cs, p, keep)) == Online(cs)
    ensures HeldAt(Retain(cs, p, keep), p, keep)
  {
    RetainAtMost(cs[1..], p, keep);
    if cs[0].endpoint == keep {
      NotHeld(cs[1..], p, keep);
      assert Retain(cs, p, keep) == [cs[0]] + Retain(cs[1..], p, keep);
    } else {
      RetainKeeps(cs[1..], p, keep);
      LookupOnline(cs[1..], keep);
    }
  }

  lemma {:induction false} FirstOfHolds(cs: seq<Connection>, p: PeerId, d: Direction, q: PeerId)
    requires OneEachBut(cs, q)
    ensures FirstOf(cs, p, d).Some? ==> HeldAt(cs, p, FirstOf(cs, p, d).value)
    ensures EndpointForPeer(cs, p).Some? ==> HeldAt(cs, p, EndpointForPeer(cs, p).value)
  {
    if cs != [] { FirstOfHolds(cs[1..], p, d, q); }
  }

  lemma {:induction false} SetPeerHolds(cs: seq<Connection>, e: Endpoint, p: PeerId)
    requires e in Endpoints(cs)
    ensures HeldAt(SetPeer(cs, e, p), p, e)
  {
    if cs[0].endpoint != e { SetPeerHolds(cs[1..], e, p); }
  }

  /** Any hello leaves the connections in shape, and brings nobody online but its sender. */
  lemma AuthenticateKeepsSound(t: Tracker, e: Endpoint, p: PeerId)
    requires Sound(t)
    ensures var a := AuthenticatePeer(t, e, p).after;
      Sound(a) && Online(a.connections) <= Online(t.connections) + {p}
  {
    if p == t.self {
      DropKeeps(t.connections, e);
    } else if e in Endpoints(t.connections) {
      var named := SetPeer(t.connections, e, p);
      SetPeerKeeps(t.connections, e, p);
      FirstOfHolds(named, p, DesiredDirection(t.self, p), p);
      RetainKeeps(named, p, EndpointToKeep(t.self, named, p).value);
    }
  }

  /** A hello that does not change an endpoint's peer adds that peer, and says so exactly when it is new. */
  lemma AuthenticateAddsPeer(t: Tracker, e: Endpoint, p: PeerId)
    requires Sound(t) && p != t.self && e in Endpoints(t.connections)
    requires PeerOf(t.connections, e).None? || PeerOf(t.connections, e) == Some(p)
    ensures var a := AuthenticatePeer(t, e, p);
      && Online(a.after.connections) == Online(t.connections) + {p}
      && a.result == if p in Online(t.connections) then AuthenticatedExistingPeer(p) else AuthenticatedNewPeer(p)
  {
    var named := SetPeer(t.connections, e, p);
    SetPeerKeeps(t.connections, e, p);
    SetPeerHolds(t.connections, e, p);
    LookupOnline(named, e);
    var keep := EndpointToKeep(t.self, named, p);
    FirstOfHolds(named, p, DesiredDirection(t.self, p), p);
    RetainKeeps(named, p, keep.value);
    if p !in Online(t.connections) {
      NewPeerHeldOnlyAt(t.connections, e, p, keep.value);
    }
  }

  /** A hello that does change it takes the old peer offline, and the result does not say so. */
  lemma RebindTakesOffline(t: Tracker, e: Endpoint, p: PeerId, q: PeerId)
    requires Sound(t) && PeerOf(t.connections, e) == Some(q) && p != q
    ensures q in Online(t.connections) && q !in Online(AuthenticatePeer(t, e, p).after.connections)
  {
    LookupOnline(t.connections, e);
    if p == t.self {
      DropKeeps(t.connections, e);
    } else {
      var named := SetPeer(t.connections, e, p);
      SetPeerRebinds(t.connections, e, p, q);
      var keep := EndpointToKeep(t.self, named, p);
      if keep.Some? { RetainAtMost(named, p, keep.value); }
    }
  }

  lemma {:induction false} NewPeerHeldOnlyAt(cs: seq<Connection>, e: Endpoint, p: PeerId, f: Endpoint)
    requires p !in Online(cs) && HeldAt(SetPeer(cs, e, p), p, f)
    ensures e == f
  {
    if cs != [] && cs[0].endpoint != e {
      LookupOnline(cs, f);
      NewPeerHeldOnlyAt(cs[1..], e, p, f);
    } else if cs != [] {
      LookupOnline(cs[1..], f);
    }
  }

  /** Removing an endpoint reports its peer, which is then gone: no second connection can hold it. */
  lemma RemoveTakesOffline(t: Tracker, e: Endpoint)
    requires Sound(t)
    ensures var removed := RemoveEndpoint(t, e);
      && Sound(removed.after) && !removed.removal.PeerStillConnected?
      && Endpoints(removed.after.connections) == Endpoints(t.connections) - {e}
      && match PeerOf(t.connections, e)
         case Some(p) => removed.removal == PeerDisconnected(p)
                         && Online(removed.after.connections) == Online(t.connections) - {p}
         case None => !removed.removal.PeerDisconnected? && Online(removed.after.connections) == Online(t.connections)
  {
    DropKeeps(t.connections, e);
    LookupOnline(t.connections, e);
  }

  lemma RecordKeepsOnline(t: Tracker, e: Endpoint, d: Direction)
    requires Sound(t)
    ensures Sound(RecordEndpoint(t, e, d)) && Online(RecordEndpoint(t, e, d).connections) == Online(t.connections)
    ensures Endpoints(RecordEndpoint(t, e, d).connections) == Endpoints(t.connections) + {e}
  {
    if e in Endpoints(t.connections) {
      SetDirectionKeeps(t.connections, e, d);
    } else {
      AppendKeeps(t.connections, Connection(e, d, None));
    }
  }
}
