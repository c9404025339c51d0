/** The transport worker as a value: what each network event and command emits, sends and closes. */
module WorkerModel {
  import opened Base
  import opened Protocol
  import opened Connections
  import opened Sessions
  import M = RuntimeModel

  datatype Packet = HelloPacket | EventPacket(frame: Frame)

  datatype Posted = Posted(endpoint: Endpoint, packet: Packet)

  /** The state, with everything the worker has told the daemon, put on the wire and closed. */
  datatype Worker = Worker(
    tracker: Tracker,
    nextSequence: nat,
    emitted: seq<M.TransportEvent>,
    wire: seq<Posted>,
    closed: seq<Endpoint>)

  /**
   * What reaches the worker. Whether a hello could be sent, which endpoints fail to take a frame and
   * whether bytes decode to a message are the network's choice.
   */
  datatype Input =
    | Connected(endpoint: Endpoint, helloSent: bool)
    | ConnectFailed(endpoint: Endpoint)
    | AcceptedFrom(endpoint: Endpoint, helloSent: bool)
    | Received(endpoint: Endpoint, message: Option<Message>)
    | Disconnected(endpoint: Endpoint)
    | BroadcastCommand(event: SyncEvent, serializable: bool, failing: set<Endpoint>)
    | SendCommand(peer: PeerId, event: SyncEvent, serializable: bool, failing: set<Endpoint>)

  datatype Reply = NoReply | SentTo(count: nat) | Delivered(sent: bool) | Refused(error: EncodeError)

  datatype Handled = Handled(after: Worker, reply: Reply)

  datatype Sending = Sending(after: Worker, sent: bool)

  datatype Fanout = Fanout(after: Worker, count: nat)

  function New(self: PeerId): Worker { Worker(Tracker(self, [], map[]), FIRST_EVENT_SEQUENCE, [], [], []) }

  function Emit(w: Worker, e: M.TransportEvent): Worker { w.(emitted := w.emitted + [e]) }

  function CloseEndpoint(w: Worker, e: Endpoint): Worker {
    var removed := RemoveEndpoint(w.tracker, e);
    w.(tracker := removed.after,
       emitted := w.emitted + (if removed.removal.PeerDisconnected? then [M.PeerDisconnected(removed.removal.peer)] else []),
       closed := w.closed + [e])
  }

  function SendHello(w: Worker, e: Endpoint, sent: bool): Worker {
    if sent then w.(wire := w.wire + [Posted(e, HelloPacket)]) else CloseEndpoint(w, e)
  }

  /** A peer with other break settings is reported and dropped before it is ever authenticated. */
  function HandleHello(w: Worker, e: Endpoint, sender: PeerId, compatible: bool): Worker {
    if sender != w.tracker.self && !compatible then CloseEndpoint(Emit(w, M.PeerRejected(sender)), e)
    else
      var a := AuthenticatePeer(w.tracker, e, sender);
      w.(tracker := a.after,
         closed := w.closed + a.toClose,
         emitted := w.emitted + (if a.result.AuthenticatedNewPeer? then [M.PeerAuthenticated(sender)] else []))
  }

  function HandleDomainEvent(w: Worker, e: Endpoint, sender: PeerId, sequence: nat, event: SyncEvent): Worker {
    var inbound := AcceptInboundEvent(w.tracker, e, sender, sequence);
    match inbound.acceptance
    case Accepted => Emit(w.(tracker := inbound.after), M.Domain(sender, event))
    case FromUnauthenticated => CloseEndpoint(w, e)
    case SenderMismatch(_) => CloseEndpoint(w, e)
    case Replayed(_) => w
  }

  function HandleMessage(w: Worker, e: Endpoint, message: Option<Message>): Worker {
    if message.None? || !ValidMessage(message.value) then CloseEndpoint(w, e)
    else match message.value.payload
      case PeerHello(compatible) => HandleHello(w, e, message.value.sender, compatible)
      case Event(event) => HandleDomainEvent(w, e, message.value.sender, message.value.sequence, event)
  }

  function SendPayload(w: Worker, e: Endpoint, frame: Frame, failing: set<Endpoint>): Sending {
    if e in failing then Sending(CloseEndpoint(w, e), false)
    else Sending(w.(wire := w.wire + [Posted(e, EventPacket(frame))]), true)
  }

  function SendEach(w: Worker, es: seq<Endpoint>, frame: Frame, failing: set<Endpoint>): Fanout
    decreases |es|
  {
    if es == [] then Fanout(w, 0)
    else
      var first := SendPayload(w, es[0], frame, failing);
      var rest := SendEach(first.after, es[1..], frame, failing);
      Fanout(rest.after, (if first.sent then 1 else 0) + rest.count)
  }

  function Broadcast(w: Worker, event: SyncEvent, serializable: bool, failing: set<Endpoint>): Handled {
    var encoded := Encode(w.tracker.self, w.nextSequence, event, serializable);
    if encoded.frame.Err? then Handled(w, Refused(encoded.frame.error))
    else
      var out := SendEach(w.(nextSequence := encoded.next), AuthenticatedEndpoints(w.tracker.connections),
                          encoded.frame.value, failing);
      Handled(out.after, SentTo(out.count))
  }

  /** A command for a peer that is not connected is answered before a number is used. */
  function SendTo(w: Worker, peer: PeerId, event: SyncEvent, serializable: bool, failing: set<Endpoint>): Handled {
    var endpoint := EndpointForPeer(w.tracker.connections, peer);
    var encoded := Encode(w.tracker.self, w.nextSequence, event, serializable);
    if endpoint.None? then Handled(w, Delivered(false))
    else if encoded.frame.Err? then Handled(w, Refused(encoded.frame.error))
    else
      var out := SendPayload(w.(nextSequence := encoded.next), endpoint.value, encoded.frame.value, failing);
      Handled(out.after, Delivered(out.sent))
  }

  function Handle(w: Worker, input: Input): Handled {
    match input
    case Connected(e, sent) =>
      Handled(SendHello(w.(tracker := RecordEndpoint(w.tracker, e, Outgoing)), e, sent), NoReply)
    case ConnectFailed(e) => Handled(CloseEndpoint(w, e), NoReply)
    case AcceptedFrom(e, sent) =>
      Handled(SendHello(w.(tracker := RecordEndpoint(w.tracker, e, Incoming)), e, sent), NoReply)
    case Received(e, message) => Handled(HandleMessage(w, e, message), NoReply)
    case Disconnected(e) => Handled(CloseEndpoint(w, e), NoReply)
    case BroadcastCommand(event, serializable, failing) => Broadcast(w, event, serializable, failing)
    case SendCommand(peer, event, serializable, failing) => SendTo(w, peer, event, serializable, failing)
  }

  function Next(w: Worker, input: Input): Worker { Handle(w, input).after }

  function Run(w: Worker, inputs: seq<Input>): Worker
    decreases |inputs|
  {
    if inputs == [] then w else Run(Next(w, inputs[0]), inputs[1..])
  }
}
