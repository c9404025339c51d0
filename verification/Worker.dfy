/** The worker object: a tracker and a session, and the channels it writes to. */
module WorkerObject {
  import opened Base
  import opened Protocol
  import opened Connections
  import opened Sessions
  import opened ConnectionObject
  import opened WorkerModel
  import M = RuntimeModel
  import W = WorkerModel

  class WorkerState {
    const tracker: ConnectionTracker
    const session: TransportSession
    var emitted: seq<M.TransportEvent>
    var wire: seq<Posted>
    var closed: seq<Endpoint>

    function View(): Worker
      reads this, tracker, session
    {
      Worker(tracker.View(), session.nextSequence, emitted, wire, closed)
    }

    /** The tracker speaks for the session's own peer id. */
    predicate Valid()
      reads this, tracker, session
    {
      tracker.self == session.self
    }

    constructor (self: PeerId)
      ensures Valid() && fresh(tracker) && fresh(session)
      ensures View() == W.New(self)
    {
      tracker := new ConnectionTracker(self);
      session := new TransportSession(self);
      emitted, wire, closed := [], [], [];
    }

    method Handle(input: Input) returns (reply: Reply)
      requires Valid()
      modifies this, tracker, session
      ensures Handled(View(), reply) == W.Handle(old(View()), input)
    {
      reply := NoReply;
      match input
      case Connected(e, sent) =>
        tracker.RecordEndpoint(e, Outgoing);
        SendHello(e, sent);
      case ConnectFailed(e) => CloseEndpoint(e);
      case AcceptedFrom(e, sent) =>
        tracker.RecordEndpoint(e, Incoming);
        SendHello(e, sent);
      case Received(e, message) => HandlePeerMessage(e, message);
      case Disconnected(e) => CloseEndpoint(e);
      case BroadcastCommand(event, serializable, failing) => reply := Broadcast(event, serializable, failing);
      case SendCommand(peer, event, serializable, failing) => reply := SendTo(peer, event, serializable, failing);
    }

    method CloseEndpoint(e: Endpoint)
      modifies this, tracker
      ensures View() == W.CloseEndpoint(old(View()), e)
    {
      var removal := tracker.RemoveEndpoint(e);
      if removal.PeerDisconnected? { emitted := emitted + [M.PeerDisconnected(removal.peer)]; }
      closed := closed + [e];
    }

    method SendHello(e: Endpoint, sent: bool)
      modifies this, tracker
      ensures View() == W.SendHello(old(View()), e, sent)
    {
      if sent { wire := wire + [Posted(e, HelloPacket)]; } else { CloseEndpoint(e); }
    }

    method HandlePeerMessage(e: Endpoint, message: Option<Message>)
      requires Valid()
      modifies this, tracker
      ensures View() == W.HandleMessage(old(View()), e, message)
    {
      if message.None? { CloseEndpoint(e); return; }
      var valid := ValidateMessage(message.value);
      if valid.Err? { CloseEndpoint(e); return; }
      match message.value.payload
      case PeerHello(compatible) => HandlePeerHello(e, message.value.sender, compatible);
      case Event(event) => HandleDomainEvent(e, message.value.sender, message.value.sequence, event);
    }

    method HandlePeerHello(e: Endpoint, sender: PeerId, compatible: bool)
      requires Valid()
      modifies this, tracker
      ensures View() == W.HandleHello(old(View()), e, sender, compatible)
    {
      if sender != session.self && !compatible {
        emitted := emitted + [M.PeerRejected(sender)];
        CloseEndpoint(e);
        return;
      }
      var result, toClose := tracker.AuthenticatePeer(e, sender);
      for i := 0 to |toClose|
        invariant closed == old(closed) + toClose[..i]
        invariant unchanged(this`emitted) && unchanged(this`wire) && unchanged(session)
        invariant Authentication(tracker.View(), result, toClose) == AuthenticatePeer(old(tracker.View()), e, sender)
      {
        closed := closed + [toClose[i]];
      }
      if result.AuthenticatedNewPeer? { emitted := emitted + [M.PeerAuthenticated(sender)]; }
    }

    method HandleDomainEvent(e: Endpoint, sender: PeerId, sequence: nat, event: SyncEvent)
      modifies this, tracker
      ensures View() == W.HandleDomainEvent(old(View()), e, sender, sequence, event)
    {
      var acceptance := tracker.AcceptInboundEvent(e, sender, sequence);
      match acceptance
      case Accepted => emitted := emitted + [M.Domain(sender, event)];
      case FromUnauthenticated => CloseEndpoint(e);
      case SenderMismatch(_) => CloseEndpoint(e);
      case Replayed(_) =>
    }

    method SendPayload(e: Endpoint, frame: Frame, failing: set<Endpoint>) returns (sent: bool)
      modifies this, tracker
      ensures Sending(View(), sent) == W.SendPayload(old(View()), e, frame, failing)
    {
      sent := e !in failing;
      if sent { wire := wire + [Posted(e, EventPacket(frame))]; } else { CloseEndpoint(e); }
    }

    /** One frame goes to every endpoint that was authenticated when the command came in. */
    method Broadcast(event: SyncEvent, serializable: bool, failing: set<Endpoint>) returns (reply: Reply)
      requires Valid()
      modifies this, tracker, session
      ensures Handled(View(), reply) == W.Broadcast(old(View()), event, serializable, failing)
    {
      var frame := session.EncodeEvent(event, serializable);
      if frame.Err? { return Refused(frame.error); }
      var endpoints := AuthenticatedEndpoints(tracker.connections);
      var count := 0;
      ghost var start := View();
      ghost var goal := SendEach(start, endpoints, frame.value, failing);
      for i := 0 to |endpoints|
        invariant var rest := SendEach(View(), endpoints[i..], frame.value, failing);
          rest.after == goal.after && count + rest.count == goal.count
      {
        assert endpoints[i..][0] == endpoints[i] && endpoints[i..][1..] == endpoints[i + 1..];
        var sent := SendPayload(endpoints[i], frame.value, failing);
        if sent { count := count + 1; }
      }
      return SentTo(count);
    }

    method SendTo(peer: PeerId, event: SyncEvent, serializable: bool, failing: set<Endpoint>) returns (reply: Reply)
      requires Valid()
      modifies this, tracker, session
      ensures Handled(View(), reply) == W.SendTo(old(View()), peer, event, serializable, failing)
    {
      var endpoint := EndpointForPeer(tracker.connections, peer);
      if endpoint.None? { return Delivered(false); }
      var frame := session.EncodeEvent(event, serializable);
      if frame.Err? { return Refused(frame.error); }
      var sent := SendPayload(endpoint.value, frame.value, failing);
      return Delivered(sent);
    }
  }
}
