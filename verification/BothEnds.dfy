/** Two machines that have each dialed the other, as one system: what one closes the other loses. */
module BothEnds {
  import opened Base
  import opened Connections
  import opened Collapse
  import D = Delivery

  /** The connection the lower id dialed, and the one the higher id dialed. */
  datatype Link = Kept | Doubled

  datatype Side = Lower | Higher

  /** A machine's ends of the two connections. */
  datatype Ends = Ends(kept: Endpoint, doubled: Endpoint)

  /** Both machines, and which connections each has closed. */
  datatype Pair = Pair(
    lower: Tracker, higher: Tracker,
    lowerEnds: Ends, higherEnds: Ends,
    closedByLower: set<Link>, closedByHigher: set<Link>)

  datatype PairStep =
    | Opens(side: Side, link: Link)
    | HelloArrives(side: Side, link: Link)
    | LossArrives(side: Side, link: Link)
    | Elsewhere(side: Side, event: D.Event)

  function At(pair: Pair, side: Side): Tracker { if side.Lower? then pair.lower else pair.higher }

  function EndsAt(pair: Pair, side: Side): Ends { if side.Lower? then pair.lowerEnds else pair.higherEnds }

  function PeerAt(pair: Pair, side: Side): PeerId { if side.Lower? then pair.higher.self else pair.lower.self }

  function EndOf(ends: Ends, link: Link): Endpoint { if link.Kept? then ends.kept else ends.doubled }

  function ClosedByOther(pair: Pair, side: Side): set<Link> {
    if side.Lower? then pair.closedByHigher else pair.closedByLower
  }

  /**
   * The connections open in any order at the two ends, and the first hello on one is read after that.
   * An end is lost only after the other end closed it; other peers do as they like.
   */
  predicate Possible(pair: Pair, s: PairStep) {
    match s
    case Opens(_, _) => true
    case HelloArrives(side, link) => link.Kept? ==> Recorded(pair, side)
    case LossArrives(side, link) => link in ClosedByOther(pair, side)
    case Elsewhere(side, event) =>
      var ends := EndsAt(pair, side);
      event.Arrived? || (&& event.endpoint != ends.kept && event.endpoint != ends.doubled
                         && (event.Hello? ==> event.peer != PeerAt(pair, side))
                         && (event.Recorded? ==>
                               PeerOf(At(pair, side).connections, event.endpoint) != Some(PeerAt(pair, side))))
  }

  /** The end of the kept connection is known to the machine. */
  predicate Recorded(pair: Pair, side: Side) { EndsAt(pair, side).kept in Endpoints(At(pair, side).connections) }

  /** A connection is outgoing at the machine that dialed it. */
  function DirectionOf(side: Side, link: Link): Direction { if side.Lower? == link.Kept? then Outgoing else Incoming }

  function EventOf(pair: Pair, s: PairStep): D.Event {
    var ends := EndsAt(pair, s.side);
    match s
    case Opens(side, link) => D.Recorded(EndOf(ends, link), DirectionOf(side, link))
    case HelloArrives(side, link) => D.Hello(EndOf(ends, link), PeerAt(pair, side))
    case LossArrives(_, link) => D.Lost(EndOf(ends, link))
    case Elsewhere(_, event) => event
  }

  /** The links among the endpoints that a machine closes. */
  function LinksIn(ends: Ends, closed: seq<Endpoint>): set<Link> {
    (if ends.kept in closed then {Kept} else {}) + (if ends.doubled in closed then {Doubled} else {})
  }

  function Move(pair: Pair, s: PairStep): Pair {
    var e := EventOf(pair, s);
    var closed := LinksIn(EndsAt(pair, s.side), ClosedBy(At(pair, s.side), e));
    var after := D.Apply(At(pair, s.side), e);
    if s.side.Lower? then pair.(lower := after, closedByLower := pair.closedByLower + closed)
    else pair.(higher := after, closedByHigher := pair.closedByHigher + closed)
  }

  function Run(pair: Pair, steps: seq<PairStep>): Pair
    decreases |steps|
  {
    if steps == [] || !Possible(pair, steps[0]) then pair else Run(Move(pair, steps[0]), steps[1..])
  }

  predicate AllPossible(pair: Pair, steps: seq<PairStep>)
    decreases |steps|
  {
    steps == [] || (Possible(pair, steps[0]) && AllPossible(Move(pair, steps[0]), steps[1..]))
  }

  // ----- the second connection keeps its direction -----

  predicate Opposes(t: Tracker, p: PeerId, x: Endpoint) {
    Lookup(t.connections, x).Some? ==> Lookup(t.connections, x).value.direction != DesiredDirection(t.self, p)
  }

  lemma {:induction false} LookupAfterAppendAny(cs: seq<Connection>, c: Connection, x: Endpoint)
    ensures Lookup(cs + [c], x)
         == if Lookup(cs, x).Some? then Lookup(cs, x) else if c.endpoint == x then Some(c) else None
  {
    if cs == [] {
      assert cs + [c] == [c];
    } else {
      assert (cs + [c])[0] == cs[0] && (cs + [c])[1..] == cs[1..] + [c];
      LookupAfterAppendAny(cs[1..], c, x);
    }
  }

  lemma {:induction false} LookupAfterOwnDrop(cs: seq<Connection>, x: Endpoint)
    requires UniqueEndpoints(cs)
    ensures Lookup(Drop(cs, x), x).None?
  {
    if cs != [] && cs[0].endpoint != x { LookupAfterOwnDrop(cs[1..], x); }
  }

  lemma {:induction false} LookupInRetain(cs: seq<Connection>, q: PeerId, target: Endpoint, x: Endpoint)
    requires UniqueEndpoints(cs) && Lookup(Retain(cs, q, target), x).Some?
    ensures Lookup(cs, x) == Lookup(Retain(cs, q, target), x)
  {
    UniqueAfterRetain(cs[1..], q, target);
    if cs[0].endpoint != x || Duplicate(cs[0], q, target) { LookupInRetain(cs[1..], q, target, x); }
  }

  lemma DropOpposes(t: Tracker, e: Endpoint, p: PeerId, x: Endpoint)
    requires UniqueEndpoints(t.connections) && Opposes(t, p, x)
    ensures Opposes(t.(connections := Drop(t.connections, e)), p, x)
  {
    if e == x { LookupAfterOwnDrop(t.connections, x); } else { LookupAfterDrop(t.connections, e, x); }
  }

  lemma HelloOpposes(t: Tracker, e: Endpoint, q: PeerId, p: PeerId, x: Endpoint)
    requires UniqueEndpoints(t.connections) && Opposes(t, p, x)
    ensures Opposes(AuthenticatePeer(t, e, q).after, p, x)
  {
    if q == t.self {
      DropOpposes(t, e, p, x);
    } else if e in Endpoints(t.connections) {
      var named := SetPeer(t.connections, e, q);
      SetPeerUnique(t.connections, e, q);
      LookupAfterSetPeer(t.connections, e, q, x);
      var target := EndpointToKeep(t.self, named, q);
      if target.Some? && Lookup(Retain(named, q, target.value), x).Some? {
        LookupInRetain(named, q, target.value, x);
      }
    }
  }

  lemma EventOpposes(t: Tracker, e: D.Event, p: PeerId, x: Endpoint)
    requires UniqueEndpoints(t.connections) && Opposes(t, p, x)
    requires e.Recorded? && e.endpoint == x ==> e.direction != DesiredDirection(t.self, p)
    ensures Opposes(D.Apply(t, e), p, x)
  {
    match e
    case Recorded(endpoint, d) =>
      LookupAfterSetDirection(t.connections, endpoint, d, x);
      LookupAfterAppendAny(t.connections, Connection(endpoint, d, None), x);
    case Hello(endpoint, q) => HelloOpposes(t, endpoint, q, p, x);
    case Lost(endpoint) => DropOpposes(t, endpoint, p, x);
    case Arrived(_, _, _) =>
  }

  // ----- before the kept connection is known -----

  /** If the kept connection is known, it runs the preferred way and is nobody else's. */
  predicate InOrder(t: Tracker, p: PeerId, keep: Endpoint) {
    && p != t.self && UniqueEndpoints(t.connections)
    && OthersOpposite(t.connections, p, keep, DesiredDirection(t.self, p))
    && match Lookup(t.connections, keep)
       case None => true
       case Some(c) => c.direction == DesiredDirection(t.self, p) && (c.peer == None || c.peer == Some(p))
  }

  lemma InOrderKeeping(t: Tracker, p: PeerId, keep: Endpoint)
    ensures Keeping(t, p, keep) <==> InOrder(t, p, keep) && Lookup(t.connections, keep).Some?
  {
  }

  lemma {:induction false} AbsentFromOthers(cs: seq<Connection>, q: PeerId, target: Endpoint, keep: Endpoint)
    requires Lookup(cs, keep).None?
    ensures Lookup(Retain(cs, q, target), keep).None?
  {
    if cs != [] { AbsentFromOthers(cs[1..], q, target, keep); }
  }

  lemma AbsentHello(t: Tracker, e: Endpoint, q: PeerId, p: PeerId, keep: Endpoint)
    requires InOrder(t, p, keep) && Lookup(t.connections, keep).None? && e != keep
    requires Fair(t, D.Hello(e, q), p, keep)
    ensures var a := AuthenticatePeer(t, e, q);
      InOrder(a.after, p, keep) && Lookup(a.after.connections, keep).None? && keep !in a.toClose
  {
    var desired := DesiredDirection(t.self, p);
    if q == t.self {
      UniqueAfterDrop(t.connections, e);
      LookupAfterDrop(t.connections, e, keep);
      OppositeAfterDrop(t.connections, e, p, keep, desired);
    } else if e in Endpoints(t.connections) {
      var named := SetPeer(t.connections, e, q);
      SetPeerUnique(t.connections, e, q);
      LookupAfterSetPeer(t.connections, e, q, keep);
      OppositeAfterSetPeer(t.connections, e, p, q, keep, desired);
      var target := EndpointToKeep(t.self, named, q);
      if target.Some? {
        UniqueAfterRetain(named, q, target.value);
        AbsentFromOthers(named, q, target.value, keep);
        OppositeAfterRetain(named, q, target.value, p, keep, desired);
        NoSuchEndpoint(named, q, target.value, keep);
      }
    }
  }

  lemma AbsentKeeps(t: Tracker, e: D.Event, p: PeerId, keep: Endpoint)
    requires InOrder(t, p, keep) && Lookup(t.connections, keep).None?
    requires Fair(t, e, p, keep) && (e.Hello? ==> e.endpoint != keep)
    ensures InOrder(D.Apply(t, e), p, keep) && keep !in ClosedBy(t, e)
    ensures e.Recorded? && e.endpoint == keep ==> Lookup(D.Apply(t, e).connections, keep).Some?
  {
    var desired := DesiredDirection(t.self, p);
    match e
    case Recorded(endpoint, d) =>
      UniqueAfterRecord(t.connections, endpoint, d);
      if endpoint in Endpoints(t.connections) {
        LookupAfterSetDirection(t.connections, endpoint, d, keep);
        OppositeAfterSetDirection(t.connections, endpoint, d, p, keep, desired);
      } else {
        LookupAfterAppendAny(t.connections, Connection(endpoint, d, None), keep);
        OppositeAfterAppend(t.connections, Connection(endpoint, d, None), p, keep, desired);
      }
    case Hello(endpoint, q) => AbsentHello(t, endpoint, q, p, keep);
    case Lost(endpoint) =>
      UniqueAfterDrop(t.connections, endpoint);
      LookupAfterDrop(t.connections, endpoint, keep);
      OppositeAfterDrop(t.connections, endpoint, p, keep, desired);
    case Arrived(_, _, _) =>
  }

  // ----- both ends -----

  predicate SideGood(pair: Pair, side: Side) {
    && InOrder(At(pair, side), PeerAt(pair, side), EndsAt(pair, side).kept)
    && Opposes(At(pair, side), PeerAt(pair, side), EndsAt(pair, side).doubled)
    && EndsAt(pair, side).kept != EndsAt(pair, side).doubled
  }

  /**
   * At both ends the kept connection, if known, runs from the lower id to the higher, and whatever
   * else the two machines have between them runs the other way, authenticated or not; nobody has
   * closed the kept one.
   */
  predicate Good(pair: Pair) {
    && pair.lower.self < pair.higher.self
    && SideGood(pair, Lower) && SideGood(pair, Higher)
    && Kept !in pair.closedByLower && Kept !in pair.closedByHigher
  }

  /** The machine holds the kept connection as one with the other machine. */
  predicate Holds(pair: Pair, side: Side) {
    PeerOf(At(pair, side).connections, EndsAt(pair, side).kept) == Some(PeerAt(pair, side))
  }

  /** Every possible step is one the kept connection survives: nobody reports it lost. */
  lemma StepIsFair(pair: Pair, s: PairStep)
    requires Good(pair) && Possible(pair, s)
    ensures Fair(At(pair, s.side), EventOf(pair, s), PeerAt(pair, s.side), EndsAt(pair, s.side).kept)
    ensures var e := EventOf(pair, s);
      && (e.Recorded? && e.endpoint == EndsAt(pair, s.side).doubled ==>
            e.direction != DesiredDirection(At(pair, s.side).self, PeerAt(pair, s.side)))
      && (e.Hello? && e.endpoint == EndsAt(pair, s.side).kept ==> Recorded(pair, s.side))
  {
  }

  /** What a step does at the machine that takes it. */
  predicate TakerGood(pair: Pair, s: PairStep, after: Tracker) {
    var p, ends := PeerAt(pair, s.side), EndsAt(pair, s.side);
    && after.self == At(pair, s.side).self
    && InOrder(after, p, ends.kept) && Opposes(after, p, ends.doubled)
    && Kept !in LinksIn(ends, ClosedBy(At(pair, s.side), EventOf(pair, s)))
    && (s == Opens(s.side, Kept) || Recorded(pair, s.side) ==> ends.kept in Endpoints(after.connections))
    && (s == HelloArrives(s.side, Kept) || Holds(pair, s.side) ==> PeerOf(after.connections, ends.kept) == Some(p))
  }

  lemma TakerKeeps(pair: Pair, s: PairStep)
    requires Good(pair) && Possible(pair, s)
    ensures TakerGood(pair, s, D.Apply(At(pair, s.side), EventOf(pair, s)))
  {
    var t, e, p, ends := At(pair, s.side), EventOf(pair, s), PeerAt(pair, s.side), EndsAt(pair, s.side);
    StepIsFair(pair, s);
    EventOpposes(t, e, p, ends.doubled);
    InOrderKeeping(t, p, ends.kept);
    InOrderKeeping(D.Apply(t, e), p, ends.kept);
    if Recorded(pair, s.side) {
      EventKeeps(t, e, p, ends.kept);
    } else {
      AbsentKeeps(t, e, p, ends.kept);
    }
  }

  lemma MoveKeeps(pair: Pair, s: PairStep, side: Side)
    requires Good(pair) && Possible(pair, s)
    ensures Good(Move(pair, s))
    ensures s == Opens(side, Kept) || Recorded(pair, side) ==> Recorded(Move(pair, s), side)
    ensures s == HelloArrives(side, Kept) || Holds(pair, side) ==> Holds(Move(pair, s), side)
  {
    TakerKeeps(pair, s);
  }

  lemma {:induction false} RunKeeps(pair: Pair, steps: seq<PairStep>, side: Side)
    requires Good(pair) && AllPossible(pair, steps)
    ensures Good(Run(pair, steps))
    ensures Opens(side, Kept) in steps || Recorded(pair, side) ==> Recorded(Run(pair, steps), side)
    ensures HelloArrives(side, Kept) in steps || Holds(pair, side) ==> Holds(Run(pair, steps), side)
    decreases |steps|
  {
    if steps != [] {
      MoveKeeps(pair, steps[0], side);
      RunKeeps(Move(pair, steps[0]), steps[1..], side);
    }
  }

  /**
   * Two machines that dial each other: whatever the order in which the two connections open, hellos
   * arrive and losses are noticed on the two sides, neither closes the connection the lower id dialed,
   * so neither ever loses it once it is open, and each holds it once the other's hello has come over it.
   */
  lemma LowersConnectionSurvives(pair: Pair, steps: seq<PairStep>, side: Side)
    requires Good(pair) && AllPossible(pair, steps)
    ensures var after := Run(pair, steps);
      && Kept !in after.closedByLower && Kept !in after.closedByHigher
      && !Possible(after, LossArrives(side, Kept))
      && (Opens(side, Kept) in steps || Recorded(pair, side) ==> Recorded(after, side))
      && (HelloArrives(side, Kept) in steps || Holds(pair, side) ==> Holds(after, side))
  {
    RunKeeps(pair, steps, side);
  }

  /** Two machines that have not met are in such a state, whatever else they are connected to. */
  lemma StrangersAreGood(pair: Pair)
    requires pair.lower.self < pair.higher.self
    requires UniqueEndpoints(pair.lower.connections) && UniqueEndpoints(pair.higher.connections)
    requires pair.lowerEnds.kept != pair.lowerEnds.doubled && pair.higherEnds.kept != pair.higherEnds.doubled
    requires {pair.lowerEnds.kept, pair.lowerEnds.doubled} !! Endpoints(pair.lower.connections)
    requires {pair.higherEnds.kept, pair.higherEnds.doubled} !! Endpoints(pair.higher.connections)
    requires pair.higher.self !in Online(pair.lower.connections) && pair.lower.self !in Online(pair.higher.connections)
    requires pair.closedByLower == pair.closedByHigher == {}
    ensures Good(pair)
  {
    NoneOpposite(pair.lower.connections, pair.higher.self, pair.lowerEnds.kept, Outgoing);
    NoneOpposite(pair.higher.connections, pair.lower.self, pair.higherEnds.kept, Incoming);
  }

  lemma {:induction false} NoneOpposite(cs: seq<Connection>, p: PeerId, keep: Endpoint, desired: Direction)
    requires p !in Online(cs)
    ensures OthersOpposite(cs, p, keep, desired)
  {
    if cs != [] { NoneOpposite(cs[1..], p, keep, desired); }
  }
}
