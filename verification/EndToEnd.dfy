/** Events from one worker to another: numbered on the wire, taken once, handed on in order. */
module EndToEnd {
  import opened Base
  import opened Protocol
  import opened Connections
  import opened Sessions
  import opened TrackerInvariant
  import opened WorkerModel
  import opened Announcements
  import D = Delivery
  import M = RuntimeModel

  // ----- the sending side -----

  /** The numbered frames put on the wire to an endpoint, in order. */
  function FramesTo(wire: seq<Posted>, e: Endpoint): seq<Frame> {
    if wire == [] then []
    else
      var last := wire[|wire| - 1];
      FramesTo(wire[..|wire| - 1], e)
      + (if last.endpoint == e && last.packet.EventPacket? then [last.packet.frame] else [])
  }

  /** Numbers rise strictly and stay below a bound; every frame carries the sender's id. */
  predicate Rising(frames: seq<Frame>, sender: PeerId, below: nat) {
    frames == [] ||
    (&& frames[|frames| - 1].sequence < below
     && frames[|frames| - 1].sender == sender
     && Rising(frames[..|frames| - 1], sender, frames[|frames| - 1].sequence))
  }

  lemma FramesToAppend(wire: seq<Posted>, p: Posted, e: Endpoint)
    ensures FramesTo(wire + [p], e)
         == FramesTo(wire, e) + (if p.endpoint == e && p.packet.EventPacket? then [p.packet.frame] else [])
  {
    assert (wire + [p])[..|wire|] == wire;
  }

  lemma RisingAppend(frames: seq<Frame>, sender: PeerId, f: Frame, below: nat)
    requires Rising(frames, sender, f.sequence) && f.sender == sender && f.sequence < below
    ensures Rising(frames + [f], sender, below)
  {
    assert (frames + [f])[..|frames|] == frames;
  }

  predicate Distinct(es: seq<Endpoint>) { es == [] || (es[0] !in es[1..] && Distinct(es[1..])) }

  lemma {:induction false} AuthenticatedAreDistinct(cs: seq<Connection>)
    requires OneEach(cs)
    ensures Distinct(AuthenticatedEndpoints(cs))
    ensures forall e :: e in AuthenticatedEndpoints(cs) <==> PeerOf(cs, e).Some?
  {
    if cs != [] {
      AuthenticatedAreDistinct(cs[1..]);
      if cs[0].peer.Some? {
        assert AuthenticatedEndpoints(cs)[1..] == AuthenticatedEndpoints(cs[1..]);
        assert AuthenticatedEndpoints(cs)[0] == cs[0].endpoint;
      } else {
        assert AuthenticatedEndpoints(cs) == AuthenticatedEndpoints(cs[1..]);
      }
    }
  }

  /** Sending one frame around adds it once to each endpoint that takes it, and to no other. */
  lemma {:induction false} SendEachPosts(w: Worker, es: seq<Endpoint>, frame: Frame, failing: set<Endpoint>, e: Endpoint)
    requires Distinct(es)
    ensures var after := SendEach(w, es, frame, failing).after;
      FramesTo(after.wire, e) == FramesTo(w.wire, e) + (if e in es && e !in failing then [frame] else [])
    decreases |es|
  {
    if es != [] {
      var first := SendPayload(w, es[0], frame, failing).after;
      SendEachPosts(first, es[1..], frame, failing, e);
      if es[0] !in failing { FramesToAppend(w.wire, Posted(es[0], EventPacket(frame)), e); }
    }
  }

  /** The frame, if any, that an input puts on the wire to an endpoint. */
  function PostTo(w: Worker, input: Input, e: Endpoint): (frames: seq<Frame>)
    ensures |frames| <= 1
    ensures frames != [] ==>
      && frames[0].sender == w.tracker.self
      && frames[0].sequence == w.nextSequence && Next(w, input).nextSequence == w.nextSequence + 1
  {
    if !input.BroadcastCommand? && !input.SendCommand? then []
    else
      var encoded := Encode(w.tracker.self, w.nextSequence, input.event, input.serializable);
      var chosen := if input.BroadcastCommand? then PeerOf(w.tracker.connections, e).Some?
                    else EndpointForPeer(w.tracker.connections, input.peer) == Some(e);
      if encoded.frame.Err? || !chosen || e in input.failing then []
      else
        assert Next(w, input).nextSequence == w.nextSequence + 1 by {
          SendEachCounts(w.(nextSequence := encoded.next), AuthenticatedEndpoints(w.tracker.connections),
                         encoded.frame.value, input.failing);
        }
        [encoded.frame.value]
  }

  lemma {:induction false} SendEachCounts(w: Worker, es: seq<Endpoint>, frame: Frame, failing: set<Endpoint>)
    ensures var after := SendEach(w, es, frame, failing).after;
      after.nextSequence == w.nextSequence && after.tracker.self == w.tracker.self
    decreases |es|
  {
    if es != [] { SendEachCounts(SendPayload(w, es[0], frame, failing).after, es[1..], frame, failing); }
  }

  lemma StepCounts(w: Worker, input: Input)
    ensures Next(w, input).tracker.self == w.tracker.self && w.nextSequence <= Next(w, input).nextSequence
  {
    if input.BroadcastCommand? {
      var encoded := Encode(w.tracker.self, w.nextSequence, input.event, input.serializable);
      if encoded.frame.Ok? {
        SendEachCounts(w.(nextSequence := encoded.next), AuthenticatedEndpoints(w.tracker.connections),
                       encoded.frame.value, input.failing);
      }
    }
  }

  lemma CommandPosts(w: Worker, input: Input, e: Endpoint)
    requires Sound(w.tracker) && (input.BroadcastCommand? || input.SendCommand?)
    ensures FramesTo(Next(w, input).wire, e) == FramesTo(w.wire, e) + PostTo(w, input, e)
  {
    var encoded := Encode(w.tracker.self, w.nextSequence, input.event, input.serializable);
    if encoded.frame.Ok? {
      if input.BroadcastCommand? {
        AuthenticatedAreDistinct(w.tracker.connections);
        SendEachPosts(w.(nextSequence := encoded.next), AuthenticatedEndpoints(w.tracker.connections),
                      encoded.frame.value, input.failing, e);
      } else if EndpointForPeer(w.tracker.connections, input.peer).Some? {
        FramesToAppend(w.wire, Posted(EndpointForPeer(w.tracker.connections, input.peer).value,
                                      EventPacket(encoded.frame.value)), e);
      }
    }
  }

  /** One input puts at most one frame on the wire to an endpoint, with the next number. */
  lemma StepPosts(w: Worker, input: Input, e: Endpoint)
    requires Sound(w.tracker)
    ensures FramesTo(Next(w, input).wire, e) == FramesTo(w.wire, e) + PostTo(w, input, e)
  {
    if input.BroadcastCommand? || input.SendCommand? {
      CommandPosts(w, input, e);
    } else if input.Connected? || input.AcceptedFrom? {
      FramesToAppend(w.wire, Posted(input.endpoint, HelloPacket), e);
    }
  }

  /** Over every run, the frames a worker sends to an endpoint carry strictly rising numbers. */
  lemma {:induction false} FramesRise(w: Worker, inputs: seq<Input>, e: Endpoint)
    requires Sound(w.tracker) && Rising(FramesTo(w.wire, e), w.tracker.self, w.nextSequence)
    ensures var after := Run(w, inputs);
      after.tracker.self == w.tracker.self && Rising(FramesTo(after.wire, e), w.tracker.self, after.nextSequence)
    decreases |inputs|
  {
    if inputs != [] {
      var x := Next(w, inputs[0]);
      StepKeepsSound(w, inputs[0]);
      StepPosts(w, inputs[0], e);
      StepCounts(w, inputs[0]);
      if PostTo(w, inputs[0], e) != [] {
        RisingAppend(FramesTo(w.wire, e), w.tracker.self, PostTo(w, inputs[0], e)[0], x.nextSequence);
      } else {
        assert FramesTo(x.wire, e) == FramesTo(w.wire, e);
      }
      FramesRise(x, inputs[1..], e);
    }
  }

  /** A broadcast reaches every authenticated endpoint once, except that those that fail are closed. */
  lemma BroadcastReachesAll(w: Worker, event: SyncEvent, serializable: bool, failing: set<Endpoint>, e: Endpoint)
    requires Sound(w.tracker) && Encode(w.tracker.self, w.nextSequence, event, serializable).frame.Ok?
    ensures var frame := Encode(w.tracker.self, w.nextSequence, event, serializable).frame.value;
      && var after := Broadcast(w, event, serializable, failing).after;
      && var connected := PeerOf(w.tracker.connections, e).Some?;
      && FramesTo(after.wire, e) == FramesTo(w.wire, e) + (if connected && e !in failing then [frame] else [])
      && (connected && e in failing ==> e !in Endpoints(after.tracker.connections))
  {
    var encoded := Encode(w.tracker.self, w.nextSequence, event, serializable);
    var numbered := w.(nextSequence := encoded.next);
    var es := AuthenticatedEndpoints(w.tracker.connections);
    AuthenticatedAreDistinct(w.tracker.connections);
    SendEachPosts(numbered, es, encoded.frame.value, failing, e);
    SendEachCloses(numbered, es, encoded.frame.value, failing, e);
  }

  lemma {:induction false} SendEachCloses(w: Worker, es: seq<Endpoint>, frame: Frame, failing: set<Endpoint>, e: Endpoint)
    requires Sound(w.tracker)
    ensures var after := SendEach(w, es, frame, failing).after.tracker;
      && Endpoints(after.connections) <= Endpoints(w.tracker.connections)
      && (e in es && e in failing ==> e !in Endpoints(after.connections))
    decreases |es|
  {
    if es != [] {
      CloseKeeps(w, es[0]);
      RemoveTakesOffline(w.tracker, es[0]);
      SendEachCloses(SendPayload(w, es[0], frame, failing).after, es[1..], frame, failing, e);
    }
  }

  // ----- the receiving side -----

  predicate ArrivalFrom(input: Input, p: PeerId) {
    input.Received? && input.message.Some? && input.message.value.payload.Event? && input.message.value.sender == p
  }

  function ArrivalsFrom(inputs: seq<Input>, p: PeerId): seq<Message> {
    if inputs == [] then []
    else (if ArrivalFrom(inputs[0], p) then [inputs[0].message.value] else []) + ArrivalsFrom(inputs[1..], p)
  }

  /** The message is handed on to the daemon as an event of the peer. */
  predicate Takes(w: Worker, input: Input, p: PeerId) {
    && ArrivalFrom(input, p) && ValidMessage(input.message.value)
    && AcceptInboundEvent(w.tracker, input.endpoint, p, input.message.value.sequence).acceptance == Accepted
  }

  function TakenFrom(w: Worker, inputs: seq<Input>, p: PeerId): seq<Message>
    decreases |inputs|
  {
    if inputs == [] then []
    else (if Takes(w, inputs[0], p) then [inputs[0].message.value] else []) + TakenFrom(Next(w, inputs[0]), inputs[1..], p)
  }

  function Sequences(messages: seq<Message>): seq<nat> {
    if messages == [] then [] else [messages[0].sequence] + Sequences(messages[1..])
  }

  function EventsIn(messages: seq<Message>): seq<SyncEvent> {
    if messages == [] then []
    else (if messages[0].payload.Event? then [messages[0].payload.event] else []) + EventsIn(messages[1..])
  }

  /** A peer's events in the order the daemon is given them. */
  function EventsOf(log: seq<M.TransportEvent>, p: PeerId): seq<SyncEvent> {
    if log == [] then []
    else
      var last := log[|log| - 1];
      EventsOf(log[..|log| - 1], p) + (if last.Domain? && last.peer == p then [last.event] else [])
  }

  lemma EventsOfAppend(log: seq<M.TransportEvent>, e: M.TransportEvent, p: PeerId)
    ensures EventsOf(log + [e], p) == EventsOf(log, p) + (if e.Domain? && e.peer == p then [e.event] else [])
  {
    assert (log + [e])[..|log|] == log;
  }

  lemma CloseIsSilent(w: Worker, e: Endpoint, p: PeerId)
    ensures EventsOf(CloseEndpoint(w, e).emitted, p) == EventsOf(w.emitted, p)
    ensures CloseEndpoint(w, e).tracker.highest == w.tracker.highest
  {
    var removal := RemoveEndpoint(w.tracker, e).removal;
    if removal.PeerDisconnected? {
      EventsOfAppend(w.emitted, M.PeerDisconnected(removal.peer), p);
    } else {
      assert w.emitted + [] == w.emitted;
    }
  }

  lemma {:induction false} SendEachIsSilent(w: Worker, es: seq<Endpoint>, frame: Frame, failing: set<Endpoint>, p: PeerId)
    ensures var after := SendEach(w, es, frame, failing).after;
      EventsOf(after.emitted, p) == EventsOf(w.emitted, p) && after.tracker.highest == w.tracker.highest
    decreases |es|
  {
    if es != [] {
      CloseIsSilent(w, es[0], p);
      SendEachIsSilent(SendPayload(w, es[0], frame, failing).after, es[1..], frame, failing, p);
    }
  }

  predicate Unheard(w: Worker, after: Worker, p: PeerId) {
    EventsOf(after.emitted, p) == EventsOf(w.emitted, p) && D.Highest(after.tracker, p) == D.Highest(w.tracker, p)
  }

  lemma HelloIsSilent(w: Worker, e: Endpoint, sender: PeerId, compatible: bool, p: PeerId)
    ensures Unheard(w, HandleHello(w, e, sender, compatible), p)
  {
    EventsOfAppend(w.emitted, M.PeerRejected(sender), p);
    CloseIsSilent(Emit(w, M.PeerRejected(sender)), e, p);
    EventsOfAppend(w.emitted, M.PeerAuthenticated(sender), p);
    assert w.emitted + [] == w.emitted;
  }

  lemma CommandIsSilent(w: Worker, input: Input, p: PeerId)
    requires input.BroadcastCommand? || input.SendCommand?
    ensures Unheard(w, Next(w, input), p)
  {
    var encoded := Encode(w.tracker.self, w.nextSequence, input.event, input.serializable);
    if encoded.frame.Ok? {
      var numbered := w.(nextSequence := encoded.next);
      if input.BroadcastCommand? {
        SendEachIsSilent(numbered, AuthenticatedEndpoints(w.tracker.connections), encoded.frame.value, input.failing, p);
      } else if EndpointForPeer(w.tracker.connections, input.peer).Some? {
        CloseIsSilent(numbered, EndpointForPeer(w.tracker.connections, input.peer).value, p);
      }
    }
  }

  /** What the daemon and the tracker learn from an input about a peer. */
  predicate Hears(w: Worker, input: Input, after: Worker, p: PeerId) {
    if Takes(w, input, p) then
      && EventsOf(after.emitted, p) == EventsOf(w.emitted, p) + [input.message.value.payload.event]
      && (D.Highest(w.tracker, p).Some? ==> D.Highest(w.tracker, p).value < input.message.value.sequence)
      && D.Highest(after.tracker, p) == Some(input.message.value.sequence)
    else Unheard(w, after, p)
  }

  lemma AcceptedHears(w: Worker, e: Endpoint, m: Message, p: PeerId)
    requires m.payload.Event? && AcceptInboundEvent(w.tracker, e, m.sender, m.sequence).acceptance == Accepted
    ensures var after := HandleDomainEvent(w, e, m.sender, m.sequence, m.payload.event);
      && EventsOf(after.emitted, p) == EventsOf(w.emitted, p) + (if m.sender == p then [m.payload.event] else [])
      && D.Highest(after.tracker, p) == (if m.sender == p then Some(m.sequence) else D.Highest(w.tracker, p))
  {
    EventsOfAppend(w.emitted, M.Domain(m.sender, m.payload.event), p);
  }

  lemma DomainEventHears(w: Worker, input: Input, p: PeerId)
    requires input.Received? && input.message.Some? && ValidMessage(input.message.value)
    requires input.message.value.payload.Event?
    ensures var m := input.message.value;
      Hears(w, input, HandleDomainEvent(w, input.endpoint, m.sender, m.sequence, m.payload.event), p)
  {
    var m := input.message.value;
    if AcceptInboundEvent(w.tracker, input.endpoint, m.sender, m.sequence).acceptance == Accepted {
      AcceptedHears(w, input.endpoint, m, p);
    } else {
      CloseIsSilent(w, input.endpoint, p);
    }
  }

  lemma MessageHears(w: Worker, input: Input, p: PeerId)
    requires input.Received?
    ensures Hears(w, input, HandleMessage(w, input.endpoint, input.message), p)
  {
    if input.message.None? || !ValidMessage(input.message.value) {
      CloseIsSilent(w, input.endpoint, p);
    } else if input.message.value.payload.PeerHello? {
      HelloIsSilent(w, input.endpoint, input.message.value.sender, input.message.value.payload.compatible, p);
    } else {
      DomainEventHears(w, input, p);
    }
  }

  /** The daemon hears from a peer exactly when its message is taken, and then the number moves up. */
  lemma StepHears(w: Worker, input: Input, p: PeerId)
    ensures Hears(w, input, Next(w, input), p)
  {
    match input
    case Connected(e, _) => CloseIsSilent(w.(tracker := RecordEndpoint(w.tracker, e, Outgoing)), e, p);
    case AcceptedFrom(e, _) => CloseIsSilent(w.(tracker := RecordEndpoint(w.tracker, e, Incoming)), e, p);
    case ConnectFailed(e) => CloseIsSilent(w, e, p);
    case Disconnected(e) => CloseIsSilent(w, e, p);
    case BroadcastCommand(_, _, _) => CommandIsSilent(w, input, p);
    case SendCommand(_, _, _, _) => CommandIsSilent(w, input, p);
    case Received(_, _) => MessageHears(w, input, p);
  }

  function HeardIn(w: Worker, input: Input, p: PeerId): seq<SyncEvent> {
    if Takes(w, input, p) then [input.message.value.payload.event] else []
  }

  lemma TakenHead(w: Worker, inputs: seq<Input>, p: PeerId)
    requires inputs != []
    ensures EventsIn(TakenFrom(w, inputs, p))
         == HeardIn(w, inputs[0], p) + EventsIn(TakenFrom(Next(w, inputs[0]), inputs[1..], p))
  {
    var rest := TakenFrom(Next(w, inputs[0]), inputs[1..], p);
    if Takes(w, inputs[0], p) {
      assert ([inputs[0].message.value] + rest)[1..] == rest;
    } else {
      assert [] + rest == rest;
    }
  }

  lemma StepHeardIn(w: Worker, input: Input, p: PeerId)
    ensures EventsOf(Next(w, input).emitted, p) == EventsOf(w.emitted, p) + HeardIn(w, input, p)
  {
    StepHears(w, input, p);
  }

  lemma Regroup(xs: seq<SyncEvent>, ys: seq<SyncEvent>, zs: seq<SyncEvent>)
    ensures (xs + ys) + zs == xs + (ys + zs)
  {
  }

  /** Over every run, what a worker hands on from a peer is what it took from it, in order. */
  lemma {:induction false} HeardIsTaken(w: Worker, inputs: seq<Input>, p: PeerId)
    ensures EventsOf(Run(w, inputs).emitted, p) == EventsOf(w.emitted, p) + EventsIn(TakenFrom(w, inputs, p))
    decreases |inputs|
  {
    if inputs == [] {
      assert EventsOf(w.emitted, p) + [] == EventsOf(w.emitted, p);
    } else {
      StepHeardIn(w, inputs[0], p);
      TakenHead(w, inputs, p);
      HeardIsTaken(Next(w, inputs[0]), inputs[1..], p);
      Regroup(EventsOf(w.emitted, p), HeardIn(w, inputs[0], p),
              EventsIn(TakenFrom(Next(w, inputs[0]), inputs[1..], p)));
    }
  }

  /** Over every run, the numbers of what it takes from a peer rise strictly: no event is handed on twice. */
  lemma {:induction false} TakenOnce(w: Worker, inputs: seq<Input>, p: PeerId)
    ensures D.Increasing(Sequences(TakenFrom(w, inputs, p)), D.Highest(w.tracker, p))
    decreases |inputs|
  {
    if inputs != [] {
      var rest := TakenFrom(Next(w, inputs[0]), inputs[1..], p);
      StepHears(w, inputs[0], p);
      TakenOnce(Next(w, inputs[0]), inputs[1..], p);
      if Takes(w, inputs[0], p) {
        var m := inputs[0].message.value;
        assert ([m] + rest)[1..] == rest && Sequences([m] + rest)[1..] == Sequences(rest);
      } else {
        assert [] + rest == rest;
      }
    }
  }

  /** Everything that arrives from the peer is valid and comes over a connection authenticated as it. */
  predicate Attributed(w: Worker, inputs: seq<Input>, p: PeerId)
    decreases |inputs|
  {
    inputs == [] ||
    (&& (ArrivalFrom(inputs[0], p) ==>
           ValidMessage(inputs[0].message.value) && PeerOf(w.tracker.connections, inputs[0].endpoint) == Some(p))
     && Attributed(Next(w, inputs[0]), inputs[1..], p))
  }

  lemma {:induction false} RisingArrivalsTaken(w: Worker, inputs: seq<Input>, p: PeerId)
    requires Attributed(w, inputs, p)
    requires D.Increasing(Sequences(ArrivalsFrom(inputs, p)), D.Highest(w.tracker, p))
    ensures TakenFrom(w, inputs, p) == ArrivalsFrom(inputs, p)
    decreases |inputs|
  {
    if inputs != [] {
      var rest := ArrivalsFrom(inputs[1..], p);
      StepHears(w, inputs[0], p);
      if ArrivalFrom(inputs[0], p) {
        var m := inputs[0].message.value;
        assert ([m] + rest)[1..] == rest && Sequences([m] + rest)[1..] == Sequences(rest);
        assert Sequences([m] + rest)[0] == m.sequence;
      } else {
        assert [] + rest == rest;
      }
      RisingArrivalsTaken(Next(w, inputs[0]), inputs[1..], p);
    }
  }

  // ----- both sides -----

  /** The frame, if any, that a command makes the session number, whichever connections carry it. */
  function Numbered(w: Worker, input: Input): seq<Frame> {
    if !input.BroadcastCommand? && !input.SendCommand? then []
    else
      var encoded := Encode(w.tracker.self, w.nextSequence, input.event, input.serializable);
      if encoded.frame.Err? || (input.SendCommand? && EndpointForPeer(w.tracker.connections, input.peer).None?) then []
      else [encoded.frame.value]
  }

  /** All the frames a worker numbers over a run: one session, across all its connections. */
  function SessionFrames(w: Worker, inputs: seq<Input>): seq<Frame>
    decreases |inputs|
  {
    if inputs == [] then [] else Numbered(w, inputs[0]) + SessionFrames(Next(w, inputs[0]), inputs[1..])
  }

  predicate Consecutive(frames: seq<Frame>, sender: PeerId, first: nat) {
    forall i | 0 <= i < |frames| :: frames[i].sender == sender && frames[i].sequence == first + i
  }

  lemma StepNumbers(w: Worker, input: Input)
    ensures Next(w, input).nextSequence == w.nextSequence + |Numbered(w, input)|
    ensures Next(w, input).tracker.self == w.tracker.self
    ensures Consecutive(Numbered(w, input), w.tracker.self, w.nextSequence)
  {
    if input.BroadcastCommand? {
      var encoded := Encode(w.tracker.self, w.nextSequence, input.event, input.serializable);
      if encoded.frame.Ok? {
        SendEachCounts(w.(nextSequence := encoded.next), AuthenticatedEndpoints(w.tracker.connections),
                       encoded.frame.value, input.failing);
      }
    }
  }

  /** The frames of a worker's session are numbered without gaps, in the order of its commands. */
  lemma {:induction false} SessionIsConsecutive(w: Worker, inputs: seq<Input>)
    ensures Consecutive(SessionFrames(w, inputs), w.tracker.self, w.nextSequence)
    ensures Run(w, inputs).nextSequence == w.nextSequence + |SessionFrames(w, inputs)|
    decreases |inputs|
  {
    if inputs != [] {
      StepNumbers(w, inputs[0]);
      SessionIsConsecutive(Next(w, inputs[0]), inputs[1..]);
    }
  }

  lemma {:induction false} SendEachCarries(w: Worker, es: seq<Endpoint>, frame: Frame, failing: set<Endpoint>, p: Posted)
    requires p in SendEach(w, es, frame, failing).after.wire
    ensures p in w.wire || p.packet == EventPacket(frame)
    decreases |es|
  {
    if es != [] { SendEachCarries(SendPayload(w, es[0], frame, failing).after, es[1..], frame, failing, p); }
  }

  lemma StepCarries(w: Worker, input: Input, p: Posted)
    requires p in Next(w, input).wire && p.packet.EventPacket?
    ensures p in w.wire || p.packet.frame in Numbered(w, input)
  {
    if input.BroadcastCommand? {
      var encoded := Encode(w.tracker.self, w.nextSequence, input.event, input.serializable);
      if encoded.frame.Ok? {
        SendEachCarries(w.(nextSequence := encoded.next), AuthenticatedEndpoints(w.tracker.connections),
                        encoded.frame.value, input.failing, p);
      }
    }
  }

  /** Over every run, whatever event goes out on any connection is a frame of the session. */
  lemma {:induction false} WireCarriesSession(w: Worker, inputs: seq<Input>, p: Posted)
    requires p in Run(w, inputs).wire && p.packet.EventPacket?
    ensures p in w.wire || p.packet.frame in SessionFrames(w, inputs)
    decreases |inputs|
  {
    if inputs != [] {
      WireCarriesSession(Next(w, inputs[0]), inputs[1..], p);
      if p in Next(w, inputs[0]).wire { StepCarries(w, inputs[0], p); }
    }
  }

  function Decoded(f: Frame): Message { Message(PROTOCOL_VERSION, f.sender, f.sequence, Event(f.event)) }

  /** The messages that some of the frames, in order, decode to. */
  function Picked(frames: seq<Frame>, picked: seq<nat>): seq<Message>
    requires forall k | 0 <= k < |picked| :: picked[k] < |frames|
  {
    if picked == [] then [] else [Decoded(frames[picked[0]])] + Picked(frames, picked[1..])
  }

  lemma {:induction false} PickedIncrease(
    frames: seq<Frame>, sender: PeerId, first: nat, picked: seq<nat>, from: nat, above: Option<nat>)
    requires Consecutive(frames, sender, first) && D.Ascending(picked, |frames|, from)
    requires above.Some? ==> above.value < first + from
    ensures forall k | 0 <= k < |picked| :: picked[k] < |frames|
    ensures D.Increasing(Sequences(Picked(frames, picked)), above)
  {
    if picked != [] {
      PickedIncrease(frames, sender, first, picked[1..], picked[0] + 1, Some(first + picked[0]));
      assert forall k | 0 <= k < |picked| :: k == 0 || picked[k] == picked[1..][k - 1];
      assert Sequences(Picked(frames, picked))[1..] == Sequences(Picked(frames, picked[1..]));
    }
  }

  /**
   * From one worker to another: let the sender run in any way, and let any of the frames of its
   * session reach the receiver in order, over any connections, across disconnects and reconnects
   * and among whatever else happens there. Then the receiver's daemon is given exactly the events
   * of those frames, in order, each once.
   */
  lemma EventsArriveOnce(
    sender: PeerId, sent: seq<Input>, picked: seq<nat>, receiver: PeerId, received: seq<Input>)
    requires var frames := SessionFrames(New(sender), sent);
      && D.Ascending(picked, |frames|, 0)
      && (forall k | 0 <= k < |picked| :: picked[k] < |frames|)
      && ArrivalsFrom(received, sender) == Picked(frames, picked)
    requires Attributed(New(receiver), received, sender)
    ensures EventsOf(Run(New(receiver), received).emitted, sender)
         == EventsIn(Picked(SessionFrames(New(sender), sent), picked))
  {
    SessionIsConsecutive(New(sender), sent);
    PickedIncrease(SessionFrames(New(sender), sent), sender, FIRST_EVENT_SEQUENCE, picked, 0, None);
    RisingArrivalsTaken(New(receiver), received, sender);
    HeardIsTaken(New(receiver), received, sender);
  }

  // ----- in terms of the wire -----

  /** Every message is a frame that the sender put on some connection. */
  predicate FromWire(messages: seq<Message>, wire: seq<Posted>) {
    forall i | 0 <= i < |messages| ::
      exists p | p in wire :: p.packet.EventPacket? && messages[i] == Decoded(p.packet.frame)
  }

  /**
   * The same seen from the network: whatever arrives from the sender was put on one of its
   * connections, and its numbers rise. Nothing of it is lost at the receiver and nothing doubled.
   */
  lemma WireEventsArriveOnce(sender: PeerId, sent: seq<Input>, receiver: PeerId, received: seq<Input>)
    requires FromWire(ArrivalsFrom(received, sender), Run(New(sender), sent).wire)
    requires D.Increasing(Sequences(ArrivalsFrom(received, sender)), None)
    requires Attributed(New(receiver), received, sender)
    ensures EventsOf(Run(New(receiver), received).emitted, sender) == EventsIn(ArrivalsFrom(received, sender))
    ensures forall i | 0 <= i < |ArrivalsFrom(received, sender)| ::
      exists f | f in SessionFrames(New(sender), sent) :: ArrivalsFrom(received, sender)[i] == Decoded(f)
  {
    var messages := ArrivalsFrom(received, sender);
    forall i | 0 <= i < |messages|
      ensures exists f | f in SessionFrames(New(sender), sent) :: messages[i] == Decoded(f)
    {
      var p :| p in Run(New(sender), sent).wire && p.packet.EventPacket? && messages[i] == Decoded(p.packet.frame);
      WireCarriesSession(New(sender), sent, p);
    }
    RisingArrivalsTaken(New(receiver), received, sender);
    HeardIsTaken(New(receiver), received, sender);
  }
}
