/** What the worker closes and why, and that every connection it uses was opened with a hello. */
module EndpointCare {
  import opened Base
  import opened Protocol
  import opened Connections
  import opened Sessions
  import opened TrackerInvariant
  import opened WorkerModel
  import EndToEnd
  import M = RuntimeModel

  function Those(es: seq<Endpoint>): set<Endpoint> { set e | e in es }

  /** What a step closes. */
  function Closes(w: Worker, after: Worker): set<Endpoint>
    requires |w.closed| <= |after.closed|
  {
    Those(after.closed[|w.closed|..])
  }

  predicate Extends(w: Worker, after: Worker) { w.closed <= after.closed }

  lemma ClosesMore(a: Worker, b: Worker, c: Worker)
    requires Extends(a, b) && Extends(b, c)
    ensures Extends(a, c) && Closes(a, c) == Closes(a, b) + Closes(b, c)
  {
    assert c.closed[|a.closed|..] == b.closed[|a.closed|..] + c.closed[|b.closed|..];
  }

  /** The step closes exactly these, and no longer tracks any of them nor loses another. */
  predicate Drops(w: Worker, after: Worker, gone: set<Endpoint>) {
    && Sound(after.tracker) && Extends(w, after) && Closes(w, after) == gone
    && Endpoints(after.tracker.connections) == Endpoints(w.tracker.connections) - gone
  }

  lemma CloseDrops(w: Worker, e: Endpoint)
    requires Sound(w.tracker)
    ensures Drops(w, CloseEndpoint(w, e), {e})
  {
    RemoveTakesOffline(w.tracker, e);
    assert CloseEndpoint(w, e).closed[|w.closed|..] == [e];
  }

  lemma DropsMore(a: Worker, b: Worker, c: Worker, first: set<Endpoint>, second: set<Endpoint>)
    requires Drops(a, b, first) && Drops(b, c, second)
    ensures Drops(a, c, first + second)
  {
    ClosesMore(a, b, c);
  }

  lemma KeepsAll(w: Worker, after: Worker)
    requires Sound(after.tracker) && after.closed == w.closed
    requires Endpoints(after.tracker.connections) == Endpoints(w.tracker.connections)
    ensures Drops(w, after, {})
  {
    assert after.closed[|w.closed|..] == [];
  }

  // ----- sending -----

  lemma SendOneDrops(w: Worker, e: Endpoint, frame: Frame, failing: set<Endpoint>)
    requires Sound(w.tracker)
    ensures Drops(w, SendPayload(w, e, frame, failing).after, {e} * failing)
  {
    if e in failing {
      CloseDrops(w, e);
      assert {e} * failing == {e};
    } else {
      KeepsAll(w, SendPayload(w, e, frame, failing).after);
      assert {e} * failing == {};
    }
  }

  lemma HeadAndRest(es: seq<Endpoint>, failing: set<Endpoint>)
    requires es != []
    ensures Those(es) * failing == {es[0]} * failing + Those(es[1..]) * failing
  {
    assert es == [es[0]] + es[1..];
    assert Those(es) == {es[0]} + Those(es[1..]);
  }

  lemma {:induction false} SendEachDrops(w: Worker, es: seq<Endpoint>, frame: Frame, failing: set<Endpoint>)
    requires Sound(w.tracker)
    ensures Drops(w, SendEach(w, es, frame, failing).after, Those(es) * failing)
    decreases |es|
  {
    if es == [] {
      KeepsAll(w, w);
    } else {
      var first := SendPayload(w, es[0], frame, failing).after;
      SendOneDrops(w, es[0], frame, failing);
      SendEachDrops(first, es[1..], frame, failing);
      DropsMore(w, first, SendEach(first, es[1..], frame, failing).after, {es[0]} * failing, Those(es[1..]) * failing);
      HeadAndRest(es, failing);
    }
  }

  /** The endpoints an accepted command is sent to. */
  function Targets(w: Worker, input: Input): set<Endpoint> {
    if input.BroadcastCommand? then Those(AuthenticatedEndpoints(w.tracker.connections))
    else if input.SendCommand? && EndpointForPeer(w.tracker.connections, input.peer).Some? then
      {EndpointForPeer(w.tracker.connections, input.peer).value}
    else {}
  }

  /** It is given a number, as it is unless the session is used up or the event is refused. */
  predicate IsSent(w: Worker, input: Input) {
    && (input.BroadcastCommand? || input.SendCommand?) && input.serializable && ValidEvent(input.event)
    && 0 < w.nextSequence != LAST_SEQUENCE
  }

  lemma CommandDrops(w: Worker, input: Input)
    requires Sound(w.tracker) && 0 < w.nextSequence && (input.BroadcastCommand? || input.SendCommand?)
    ensures Drops(w, Next(w, input), if IsSent(w, input) then Targets(w, input) * input.failing else {})
  {
    var numbered := w.(nextSequence := w.nextSequence + 1);
    if !IsSent(w, input) {
      KeepsAll(w, Next(w, input));
    } else if input.BroadcastCommand? {
      var frame := Encode(w.tracker.self, w.nextSequence, input.event, input.serializable).frame.value;
      SendEachDrops(numbered, AuthenticatedEndpoints(w.tracker.connections), frame, input.failing);
    } else if Targets(w, input) * input.failing == {} {
      KeepsAll(w, Next(w, input));
    } else {
      CloseDrops(numbered, EndpointForPeer(w.tracker.connections, input.peer).value);
    }
  }

  // ----- receiving -----

  /** The endpoint is closed for what came over it. */
  predicate Offends(w: Worker, input: Input) {
    input.Received? &&
    (|| input.message.None? || !ValidMessage(input.message.value)
     || var m := input.message.value;
        match m.payload
        case PeerHello(compatible) =>
          m.sender == w.tracker.self || !compatible || input.endpoint !in Endpoints(w.tracker.connections)
        case Event(_) => PeerOf(w.tracker.connections, input.endpoint) != Some(m.sender))
  }

  /** A hello that is taken and names the sender's connection. */
  predicate Names(w: Worker, input: Input) {
    && input.Received? && !Offends(w, input) && input.message.value.payload.PeerHello?
  }

  /** Other connections of the sender, or this one: the one that is not kept goes. */
  function Doubled(w: Worker, e: Endpoint, p: PeerId): set<Endpoint> {
    set x | x in Endpoints(w.tracker.connections) && (x == e || PeerOf(w.tracker.connections, x) == Some(p))
  }

  lemma {:induction false} CollapsePartitions(cs: seq<Connection>, p: PeerId, keep: Endpoint)
    requires OneEachBut(cs, p)
    ensures Those(Discarded(cs, p, keep)) + Endpoints(Retain(cs, p, keep)) == Endpoints(cs)
    ensures Those(Discarded(cs, p, keep)) !! Endpoints(Retain(cs, p, keep))
    ensures keep !in Discarded(cs, p, keep)
    ensures forall x | x in Discarded(cs, p, keep) :: PeerOf(cs, x) == Some(p)
    ensures forall x | x in Endpoints(Retain(cs, p, keep)) && PeerOf(cs, x) == Some(p) :: x == keep
  {
    if cs != [] {
      var rest := cs[1..];
      CollapsePartitions(rest, p, keep);
      RetainAtMost(rest, p, keep);
      if Duplicate(cs[0], p, keep) {
        var gone := Discarded(rest, p, keep);
        assert Those([cs[0].endpoint] + gone) == {cs[0].endpoint} + Those(gone);
      } else {
        assert Endpoints(Retain(cs, p, keep)) == {cs[0].endpoint} + Endpoints(Retain(rest, p, keep));
      }
    }
  }

  lemma {:induction false} NamedPeers(cs: seq<Connection>, e: Endpoint, p: PeerId, x: Endpoint)
    requires e in Endpoints(cs)
    ensures PeerOf(SetPeer(cs, e, p), x) == if x == e then Some(p) else PeerOf(cs, x)
  {
    if cs != [] && cs[0].endpoint != e { NamedPeers(cs[1..], e, p, x); }
  }

  lemma {:induction false} HeldIsTracked(cs: seq<Connection>, x: Endpoint)
    ensures PeerOf(cs, x).Some? ==> x in Endpoints(cs)
  {
  }

  /** The peer's connections after the hello, without the one that is kept, are the doubled ones. */
  lemma NamedAreDoubled(w: Worker, e: Endpoint, p: PeerId, x: Endpoint)
    requires e in Endpoints(w.tracker.connections)
    ensures PeerOf(SetPeer(w.tracker.connections, e, p), x) == Some(p) <==> x in Doubled(w, e, p)
  {
    NamedPeers(w.tracker.connections, e, p, x);
    HeldIsTracked(w.tracker.connections, x);
  }

  lemma KeepOf(w: Worker, e: Endpoint, p: PeerId) returns (keep: Endpoint)
    requires Sound(w.tracker) && e in Endpoints(w.tracker.connections)
    ensures var named := SetPeer(w.tracker.connections, e, p);
      && OneEachBut(named, p) && HeldAt(named, p, keep) && EndpointToKeep(w.tracker.self, named, p) == Some(keep)
  {
    var named := SetPeer(w.tracker.connections, e, p);
    SetPeerKeeps(w.tracker.connections, e, p);
    FirstOfHolds(named, p, DesiredDirection(w.tracker.self, p), p);
    keep := EndpointToKeep(w.tracker.self, named, p).value;
  }

  lemma DiscardedAreDoubled(w: Worker, e: Endpoint, p: PeerId, keep: Endpoint)
    requires e in Endpoints(w.tracker.connections)
    requires var named := SetPeer(w.tracker.connections, e, p); OneEachBut(named, p) && HeldAt(named, p, keep)
    ensures keep in Doubled(w, e, p)
    ensures Those(Discarded(SetPeer(w.tracker.connections, e, p), p, keep)) == Doubled(w, e, p) - {keep}
  {
    var named := SetPeer(w.tracker.connections, e, p);
    CollapsePartitions(named, p, keep);
    NamedAreDoubled(w, e, p, keep);
    forall x ensures x in Discarded(named, p, keep) <==> x in Doubled(w, e, p) - {keep} {
      NamedAreDoubled(w, e, p, x);
      HeldIsTracked(named, x);
    }
  }

  /** A hello leaves its sender one connection and closes the others, this one among them if it is not the one kept. */
  lemma HelloDrops(w: Worker, e: Endpoint, p: PeerId)
    requires Sound(w.tracker) && p != w.tracker.self && e in Endpoints(w.tracker.connections)
    ensures var after := HandleHello(w, e, p, true);
      exists keep | keep in Doubled(w, e, p) :: Drops(w, after, Doubled(w, e, p) - {keep})
  {
    var named := SetPeer(w.tracker.connections, e, p);
    SetPeerKeeps(w.tracker.connections, e, p);
    var keep := KeepOf(w, e, p);
    DiscardedAreDoubled(w, e, p, keep);
    CollapsePartitions(named, p, keep);
    AuthenticateKeepsSound(w.tracker, e, p);
    CollapseCloses(w, e, p, keep);
    assert Drops(w, HandleHello(w, e, p, true), Doubled(w, e, p) - {keep});
  }

  lemma CollapseCloses(w: Worker, e: Endpoint, p: PeerId, keep: Endpoint)
    requires p != w.tracker.self && e in Endpoints(w.tracker.connections)
    requires EndpointToKeep(w.tracker.self, SetPeer(w.tracker.connections, e, p), p) == Some(keep)
    ensures var after := HandleHello(w, e, p, true);
      var named := SetPeer(w.tracker.connections, e, p);
      && after.closed == w.closed + Discarded(named, p, keep) && Extends(w, after)
      && after.closed[|w.closed|..] == Discarded(named, p, keep)
      && after.tracker.connections == Retain(named, p, keep)
  {
  }

  /** What arrives closes its endpoint if it offends; a hello may close doubled connections; nothing else closes any. */
  lemma ReceivedDrops(w: Worker, input: Input)
    requires Sound(w.tracker) && input.Received?
    ensures if Names(w, input) then
        var doubled := Doubled(w, input.endpoint, input.message.value.sender);
        exists keep | keep in doubled :: Drops(w, Next(w, input), doubled - {keep})
      else Drops(w, Next(w, input), if Offends(w, input) then {input.endpoint} else {})
  {
    if Names(w, input) {
      HelloDrops(w, input.endpoint, input.message.value.sender);
    } else if Offends(w, input) {
      OffenceDrops(w, input);
    } else {
      KeepsAll(w, Next(w, input));
    }
  }

  lemma OffenceDrops(w: Worker, input: Input)
    requires Sound(w.tracker) && Offends(w, input)
    ensures Drops(w, Next(w, input), {input.endpoint})
  {
    var e := input.endpoint;
    CloseDrops(w, e);
    if input.message.Some? && ValidMessage(input.message.value) && input.message.value.payload.PeerHello? {
      var m := input.message.value;
      CloseDrops(Emit(w, M.PeerRejected(m.sender)), e);
      if m.sender == w.tracker.self || m.payload.compatible { RefusedHelloDrops(w, e, m.sender, m.payload.compatible); }
    }
  }

  lemma RefusedHelloDrops(w: Worker, e: Endpoint, p: PeerId, compatible: bool)
    requires Sound(w.tracker) && (p == w.tracker.self || (compatible && e !in Endpoints(w.tracker.connections)))
    ensures Drops(w, HandleHello(w, e, p, compatible), {e})
  {
    RemoveTakesOffline(w.tracker, e);
    AuthenticateKeepsSound(w.tracker, e, p);
    assert HandleHello(w, e, p, compatible).closed[|w.closed|..] == [e];
  }

  // ----- every step -----

  function Opened(input: Input): set<Endpoint> {
    if input.Connected? || input.AcceptedFrom? then {input.endpoint} else {}
  }

  /** The endpoint is lost for what the network says of it. */
  predicate Lost(input: Input) {
    input.ConnectFailed? || input.Disconnected? || ((input.Connected? || input.AcceptedFrom?) && !input.helloSent)
  }

  lemma {:induction false} DirectionSet(cs: seq<Connection>, e: Endpoint, d: Direction, x: Endpoint)
    ensures Lookup(SetDirection(cs, e, d), x)
         == if x == e && Lookup(cs, e).Some? then Some(Lookup(cs, e).value.(direction := d)) else Lookup(cs, x)
  {
    if cs != [] && cs[0].endpoint != e { DirectionSet(cs[1..], e, d, x); }
  }

  lemma {:induction false} AppendedLast(cs: seq<Connection>, c: Connection, x: Endpoint)
    requires c.endpoint !in Endpoints(cs)
    ensures Lookup(cs + [c], x) == if x == c.endpoint then Some(c) else Lookup(cs, x)
  {
    if cs == [] {
      assert cs + [c] == [c] && [c][1..] == [];
    } else {
      assert (cs + [c])[0] == cs[0] && (cs + [c])[1..] == cs[1..] + [c];
      AppendedLast(cs[1..], c, x);
    }
  }

  /** A connection is recorded in its direction, keeps its peer if it had one, and touches no other. */
  lemma RecordSets(t: Tracker, e: Endpoint, d: Direction, x: Endpoint)
    ensures Lookup(RecordEndpoint(t, e, d).connections, x)
         == if x == e then Some(Connection(e, d, PeerOf(t.connections, e))) else Lookup(t.connections, x)
  {
    if e in Endpoints(t.connections) {
      DirectionSet(t.connections, e, d, x);
    } else {
      AppendedLast(t.connections, Connection(e, d, None), x);
    }
  }

  lemma OpeningRecords(w: Worker, input: Input, x: Endpoint)
    requires (input.Connected? || input.AcceptedFrom?) && input.helloSent
    ensures Lookup(Next(w, input).tracker.connections, x)
         == if x != input.endpoint then Lookup(w.tracker.connections, x)
            else Some(Connection(x, if input.Connected? then Outgoing else Incoming, PeerOf(w.tracker.connections, x)))
  {
    RecordSets(w.tracker, input.endpoint, if input.Connected? then Outgoing else Incoming, x);
  }

  /** A connection that opens is tracked, in its direction, once its hello is sent, and closed otherwise. */
  lemma OpeningDrops(w: Worker, input: Input)
    requires Sound(w.tracker) && (input.Connected? || input.AcceptedFrom?)
    ensures var after := Next(w, input);
      && Sound(after.tracker) && Extends(w, after)
      && Closes(w, after) == (if input.helloSent then {} else {input.endpoint})
      && Endpoints(after.tracker.connections)
         == (if input.helloSent then Endpoints(w.tracker.connections) + {input.endpoint}
             else Endpoints(w.tracker.connections) - {input.endpoint})
      && (input.helloSent ==> after.wire == w.wire + [Posted(input.endpoint, HelloPacket)])
  {
    var d := if input.Connected? then Outgoing else Incoming;
    var recorded := w.(tracker := RecordEndpoint(w.tracker, input.endpoint, d));
    RecordKeepsOnline(w.tracker, input.endpoint, d);
    CloseDrops(recorded, input.endpoint);
    assert w.closed[|w.closed|..] == [];
  }

  /** No endpoint is given up unclosed: over any step, one that was tracked or opened is tracked or closed after. */
  lemma NothingLeaks(w: Worker, input: Input)
    requires Sound(w.tracker) && 0 < w.nextSequence
    ensures var after := Next(w, input);
      && Sound(after.tracker) && Extends(w, after)
      && Endpoints(after.tracker.connections) !! Closes(w, after)
      && Endpoints(w.tracker.connections) + Opened(input) <= Endpoints(after.tracker.connections) + Closes(w, after)
      && Endpoints(after.tracker.connections) <= Endpoints(w.tracker.connections) + Opened(input)
  {
    match input
    case Connected(_, _) => OpeningDrops(w, input);
    case AcceptedFrom(_, _) => OpeningDrops(w, input);
    case ConnectFailed(e) => CloseDrops(w, e);
    case Disconnected(e) => CloseDrops(w, e);
    case Received(_, _) => ReceivedDrops(w, input);
    case BroadcastCommand(_, _, _) => CommandDrops(w, input);
    case SendCommand(_, _, _, _) => CommandDrops(w, input);
  }

  function AllOpened(inputs: seq<Input>): set<Endpoint> {
    if inputs == [] then {} else Opened(inputs[0]) + AllOpened(inputs[1..])
  }

  lemma StepKeepsNumber(w: Worker, input: Input)
    requires 0 < w.nextSequence
    ensures 0 < Next(w, input).nextSequence
  {
    EndToEnd.StepCounts(w, input);
  }

  /** Over any run from start-up, every connection ever opened is still tracked or has been closed. */
  lemma {:induction false} OpenedIsTrackedOrClosed(w: Worker, inputs: seq<Input>)
    requires Sound(w.tracker) && 0 < w.nextSequence
    ensures var after := Run(w, inputs);
      && Endpoints(w.tracker.connections) + AllOpened(inputs) <= Endpoints(after.tracker.connections) + Those(after.closed)
      && Extends(w, after)
    decreases |inputs|
  {
    if inputs != [] {
      var next := Next(w, inputs[0]);
      NothingLeaks(w, inputs[0]);
      StepKeepsNumber(w, inputs[0]);
      OpenedIsTrackedOrClosed(next, inputs[1..]);
      var after := Run(next, inputs[1..]);
      forall e | e in next.closed ensures e in after.closed {
        var i :| 0 <= i < |next.closed| && next.closed[i] == e;
        assert after.closed[i] == e;
      }
    }
  }

  // ----- the hello comes first -----

  /** Every event on the wire comes after a hello on its connection. */
  predicate Greeted(wire: seq<Posted>) {
    wire == [] ||
    (&& Greeted(wire[..|wire| - 1])
     && (wire[|wire| - 1].packet.EventPacket? ==>
           Posted(wire[|wire| - 1].endpoint, HelloPacket) in wire[..|wire| - 1]))
  }

  predicate AllGreeted(w: Worker) {
    Greeted(w.wire) && forall e | e in Endpoints(w.tracker.connections) :: Posted(e, HelloPacket) in w.wire
  }

  lemma GreetedAppend(wire: seq<Posted>, p: Posted)
    requires Greeted(wire) && (p.packet.EventPacket? ==> Posted(p.endpoint, HelloPacket) in wire)
    ensures Greeted(wire + [p])
  {
    assert (wire + [p])[..|wire|] == wire;
  }

  /** Sending to endpoints that were greeted, even if closed meanwhile. */
  lemma {:induction false} SendEachGreets(w: Worker, es: seq<Endpoint>, frame: Frame, failing: set<Endpoint>)
    requires Sound(w.tracker) && AllGreeted(w) && forall e | e in es :: Posted(e, HelloPacket) in w.wire
    ensures AllGreeted(SendEach(w, es, frame, failing).after)
    decreases |es|
  {
    if es != [] {
      var first := SendPayload(w, es[0], frame, failing).after;
      CloseDrops(w, es[0]);
      if es[0] !in failing { GreetedAppend(w.wire, Posted(es[0], EventPacket(frame))); }
      SendEachGreets(first, es[1..], frame, failing);
    }
  }

  lemma {:induction false} TargetsAreTracked(cs: seq<Connection>, p: PeerId)
    ensures Those(AuthenticatedEndpoints(cs)) <= Endpoints(cs)
    ensures EndpointForPeer(cs, p).Some? ==> EndpointForPeer(cs, p).value in Endpoints(cs)
  {
    if cs != [] { TargetsAreTracked(cs[1..], p); }
  }

  lemma CommandGreets(w: Worker, input: Input)
    requires Sound(w.tracker) && AllGreeted(w) && (input.BroadcastCommand? || input.SendCommand?)
    ensures AllGreeted(Next(w, input))
  {
    var encoded := Encode(w.tracker.self, w.nextSequence, input.event, input.serializable);
    var numbered := w.(nextSequence := encoded.next);
    TargetsAreTracked(w.tracker.connections, if input.SendCommand? then input.peer else 0);
    if encoded.frame.Ok? {
      if input.BroadcastCommand? {
        var es := AuthenticatedEndpoints(w.tracker.connections);
        forall e | e in es ensures Posted(e, HelloPacket) in w.wire { assert e in Those(es); }
        SendEachGreets(numbered, es, encoded.frame.value, input.failing);
      } else if EndpointForPeer(w.tracker.connections, input.peer).Some? {
        var e := EndpointForPeer(w.tracker.connections, input.peer).value;
        CloseDrops(numbered, e);
        GreetedAppend(w.wire, Posted(e, EventPacket(encoded.frame.value)));
      }
    }
  }

  lemma StepGreets(w: Worker, input: Input)
    requires Sound(w.tracker) && AllGreeted(w) && 0 < w.nextSequence
    ensures AllGreeted(Next(w, input))
  {
    NothingLeaks(w, input);
    if input.BroadcastCommand? || input.SendCommand? {
      CommandGreets(w, input);
    } else if Opened(input) != {} {
      OpeningDrops(w, input);
      GreetedAppend(w.wire, Posted(input.endpoint, HelloPacket));
    }
  }

  /** Over any run from start-up, no event goes out on a connection before the hello did. */
  lemma {:induction false} HelloComesFirst(w: Worker, inputs: seq<Input>)
    requires Sound(w.tracker) && AllGreeted(w) && 0 < w.nextSequence
    ensures AllGreeted(Run(w, inputs))
    decreases |inputs|
  {
    if inputs != [] {
      NothingLeaks(w, inputs[0]);
      StepGreets(w, inputs[0]);
      StepKeepsNumber(w, inputs[0]);
      HelloComesFirst(Next(w, inputs[0]), inputs[1..]);
    }
  }
}
