/** What the worker tells the daemon about peers matches who is connected, over whole runs. */
module Announcements {
  import opened Base
  import opened Protocol
  import opened Connections
  import opened Sessions
  import opened TrackerInvariant
  import opened WorkerModel
  import M = RuntimeModel

  /** Peers the daemon has been told are there. */
  function Announced(log: seq<M.TransportEvent>): set<PeerId> {
    if log == [] then {} else After(Announced(log[..|log| - 1]), log[|log| - 1])
  }

  function After(announced: set<PeerId>, e: M.TransportEvent): set<PeerId> {
    if e.PeerAuthenticated? then announced + {e.peer}
    else if e.PeerDisconnected? then announced - {e.peer}
    else announced
  }

  /** Arrivals and departures of a peer alternate, and its events come in between. */
  predicate Orderly(log: seq<M.TransportEvent>) {
    log == [] ||
    (&& Orderly(log[..|log| - 1])
     && Follows(Announced(log[..|log| - 1]), log[|log| - 1]))
  }

  predicate Follows(announced: set<PeerId>, e: M.TransportEvent) {
    match e
    case PeerAuthenticated(p) => p !in announced
    case PeerDisconnected(p) => p in announced
    case Domain(p, _) => p in announced
    case PeerRejected(_) => true
  }

  /** The daemon knows exactly the peers that are connected. */
  predicate InStep(w: Worker) {
    Sound(w.tracker) && Orderly(w.emitted) && Announced(w.emitted) == Online(w.tracker.connections)
  }

  /** A hello that names another peer, or the machine itself, on an endpoint that already has one. */
  predicate Rebinds(w: Worker, input: Input) {
    && input.Received? && input.message.Some? && ValidMessage(input.message.value)
    && var m := input.message.value;
    && m.payload.PeerHello? && (m.payload.compatible || m.sender == w.tracker.self)
    && PeerOf(w.tracker.connections, input.endpoint).Some?
    && PeerOf(w.tracker.connections, input.endpoint) != Some(m.sender)
  }

  lemma Append(log: seq<M.TransportEvent>, e: M.TransportEvent)
    ensures Announced(log + [e]) == After(Announced(log), e)
    ensures Orderly(log + [e]) <==> Orderly(log) && Follows(Announced(log), e)
  {
    assert (log + [e])[..|log|] == log;
  }

  // ----- each operation -----

  lemma CloseKeeps(w: Worker, e: Endpoint)
    requires Sound(w.tracker)
    ensures Sound(CloseEndpoint(w, e).tracker)
    ensures Online(CloseEndpoint(w, e).tracker.connections) <= Online(w.tracker.connections)
    ensures e !in Endpoints(CloseEndpoint(w, e).tracker.connections)
    ensures InStep(w) ==> InStep(CloseEndpoint(w, e))
  {
    RemoveTakesOffline(w.tracker, e);
    LookupOnline(w.tracker.connections, e);
    if PeerOf(w.tracker.connections, e).Some? {
      Append(w.emitted, M.PeerDisconnected(PeerOf(w.tracker.connections, e).value));
    } else {
      assert w.emitted + [] == w.emitted;
    }
  }

  lemma RecordKeeps(w: Worker, e: Endpoint, d: Direction, sent: bool)
    requires Sound(w.tracker)
    ensures var x := SendHello(w.(tracker := RecordEndpoint(w.tracker, e, d)), e, sent);
      Sound(x.tracker) && (InStep(w) ==> InStep(x))
  {
    RecordKeepsOnline(w.tracker, e, d);
    CloseKeeps(w.(tracker := RecordEndpoint(w.tracker, e, d)), e);
  }

  lemma HelloKeeps(w: Worker, e: Endpoint, sender: PeerId, compatible: bool)
    requires Sound(w.tracker)
    ensures Sound(HandleHello(w, e, sender, compatible).tracker)
    ensures InStep(w) && ((sender != w.tracker.self && !compatible)
                          || PeerOf(w.tracker.connections, e).None? || PeerOf(w.tracker.connections, e) == Some(sender))
      ==> InStep(HandleHello(w, e, sender, compatible))
  {
    if sender != w.tracker.self && !compatible {
      Append(w.emitted, M.PeerRejected(sender));
      CloseKeeps(Emit(w, M.PeerRejected(sender)), e);
    } else {
      AuthenticateKeepsSound(w.tracker, e, sender);
      assert w.emitted + [] == w.emitted;
      if sender == w.tracker.self {
        DropKeeps(w.tracker.connections, e);
        LookupOnline(w.tracker.connections, e);
      } else if e in Endpoints(w.tracker.connections)
                && (PeerOf(w.tracker.connections, e).None? || PeerOf(w.tracker.connections, e) == Some(sender)) {
        AuthenticateAddsPeer(w.tracker, e, sender);
        Append(w.emitted, M.PeerAuthenticated(sender));
      }
    }
  }

  lemma DomainEventKeeps(w: Worker, e: Endpoint, sender: PeerId, sequence: nat, event: SyncEvent)
    requires Sound(w.tracker)
    ensures Sound(HandleDomainEvent(w, e, sender, sequence, event).tracker)
    ensures InStep(w) ==> InStep(HandleDomainEvent(w, e, sender, sequence, event))
  {
    CloseKeeps(w, e);
    LookupOnline(w.tracker.connections, e);
    Append(w.emitted, M.Domain(sender, event));
  }

  lemma {:induction false} SendEachKeeps(w: Worker, es: seq<Endpoint>, frame: Frame, failing: set<Endpoint>)
    requires Sound(w.tracker)
    ensures Sound(SendEach(w, es, frame, failing).after.tracker)
    ensures InStep(w) ==> InStep(SendEach(w, es, frame, failing).after)
    decreases |es|
  {
    if es != [] {
      CloseKeeps(w, es[0]);
      SendEachKeeps(SendPayload(w, es[0], frame, failing).after, es[1..], frame, failing);
    }
  }

  lemma CommandKeeps(w: Worker, input: Input)
    requires Sound(w.tracker) && (input.BroadcastCommand? || input.SendCommand?)
    ensures Sound(Next(w, input).tracker) && (InStep(w) ==> InStep(Next(w, input)))
  {
    var encoded := Encode(w.tracker.self, w.nextSequence, input.event, input.serializable);
    if encoded.frame.Ok? {
      var numbered := w.(nextSequence := encoded.next);
      if input.BroadcastCommand? {
        SendEachKeeps(numbered, AuthenticatedEndpoints(w.tracker.connections), encoded.frame.value, input.failing);
      } else if EndpointForPeer(w.tracker.connections, input.peer).Some? {
        CloseKeeps(numbered, EndpointForPeer(w.tracker.connections, input.peer).value);
      }
    }
  }

  /** Every input keeps endpoints unique and each peer on one connection at most, rebinding or not. */
  lemma StepKeepsSound(w: Worker, input: Input)
    requires Sound(w.tracker)
    ensures Sound(Next(w, input).tracker)
    ensures InStep(w) && !Rebinds(w, input) ==> InStep(Next(w, input))
  {
    match input
    case Connected(e, sent) => RecordKeeps(w, e, Outgoing, sent);
    case ConnectFailed(e) => CloseKeeps(w, e);
    case AcceptedFrom(e, sent) => RecordKeeps(w, e, Incoming, sent);
    case Disconnected(e) => CloseKeeps(w, e);
    case Received(e, message) =>
      CloseKeeps(w, e);
      if message.Some? && ValidMessage(message.value) {
        match message.value.payload
        case PeerHello(compatible) => HelloKeeps(w, e, message.value.sender, compatible);
        case Event(event) => DomainEventKeeps(w, e, message.value.sender, message.value.sequence, event);
      }
    case BroadcastCommand(_, _, _) => CommandKeeps(w, input);
    case SendCommand(_, _, _, _) => CommandKeeps(w, input);
  }

  /** The peer that loses its endpoint goes offline without the daemon being told. */
  lemma RebindLosesPeer(w: Worker, input: Input)
    requires InStep(w) && Rebinds(w, input)
    ensures !InStep(Next(w, input))
  {
    var q := PeerOf(w.tracker.connections, input.endpoint).value;
    var sender := input.message.value.sender;
    RebindTakesOffline(w.tracker, input.endpoint, sender, q);
    Append(w.emitted, M.PeerAuthenticated(sender));
    assert w.emitted + [] == w.emitted;
  }

  /** The daemon stays in step exactly when no hello changes the peer of an endpoint. */
  lemma InStepIff(w: Worker, input: Input)
    requires InStep(w)
    ensures InStep(Next(w, input)) <==> !Rebinds(w, input)
  {
    StepKeepsSound(w, input);
    if Rebinds(w, input) { RebindLosesPeer(w, input); }
  }

  // ----- whole runs -----

  predicate NeverRebinds(w: Worker, inputs: seq<Input>)
    decreases |inputs|
  {
    inputs == [] || (!Rebinds(w, inputs[0]) && NeverRebinds(Next(w, inputs[0]), inputs[1..]))
  }

  lemma {:induction false} RunKeeps(w: Worker, inputs: seq<Input>)
    requires Sound(w.tracker)
    ensures Sound(Run(w, inputs).tracker)
    ensures InStep(w) && NeverRebinds(w, inputs) ==> InStep(Run(w, inputs))
    decreases |inputs|
  {
    if inputs != [] {
      StepKeepsSound(w, inputs[0]);
      RunKeeps(Next(w, inputs[0]), inputs[1..]);
    }
  }

  /**
   * Over every run: endpoints are unique, each peer has one authenticated connection at most and no
   * removal ever finds a second one. Without rebinding, the daemon knows exactly who is connected.
   */
  lemma AnnouncementsMatchConnections(self: PeerId, inputs: seq<Input>, e: Endpoint)
    ensures var w := Run(New(self), inputs);
      && Sound(w.tracker)
      && !RemoveEndpoint(w.tracker, e).removal.PeerStillConnected?
      && (NeverRebinds(New(self), inputs) ==> InStep(w))
  {
    RunKeeps(New(self), inputs);
    RemoveTakesOffline(Run(New(self), inputs).tracker, e);
  }

  // ----- what an orderly log means -----

  /** The last arrival or departure of a peer before a position says whether it is announced there. */
  lemma {:induction false} AnnouncedSince(log: seq<M.TransportEvent>, p: PeerId)
    ensures p in Announced(log) <==>
      exists i | 0 <= i < |log| ::
        log[i] == M.PeerAuthenticated(p) && forall k | i < k < |log| :: log[k] != M.PeerDisconnected(p)
  {
    if log != [] {
      var before := log[..|log| - 1];
      AnnouncedSince(before, p);
      if p in Announced(before) && log[|log| - 1] != M.PeerDisconnected(p) {
        var i :| 0 <= i < |before| && before[i] == M.PeerAuthenticated(p)
                 && forall k | i < k < |before| :: before[k] != M.PeerDisconnected(p);
        assert log[i] == M.PeerAuthenticated(p) && forall k | i < k < |log| :: log[k] != M.PeerDisconnected(p);
      } else if log[|log| - 1] == M.PeerAuthenticated(p) {
        assert log[|log| - 1] == M.PeerAuthenticated(p);
      }
      if i :| 0 <= i < |log| && log[i] == M.PeerAuthenticated(p)
              && forall k | i < k < |log| :: log[k] != M.PeerDisconnected(p) {
        if i < |log| - 1 {
          assert before[i] == M.PeerAuthenticated(p) && forall k | i < k < |before| :: before[k] != M.PeerDisconnected(p);
        }
      }
    }
  }

  lemma {:induction false} OrderlyPrefix(log: seq<M.TransportEvent>, n: nat)
    requires Orderly(log) && n < |log|
    ensures Orderly(log[..n]) && Follows(Announced(log[..n]), log[n])
  {
    if n < |log| - 1 {
      OrderlyPrefix(log[..|log| - 1], n);
      assert log[..|log| - 1][..n] == log[..n];
    }
  }

  /** Between two arrivals of a peer lies its departure. */
  lemma ArrivalsAreSeparated(log: seq<M.TransportEvent>, p: PeerId, i: nat, j: nat)
    requires Orderly(log) && i < j < |log| && log[i] == log[j] == M.PeerAuthenticated(p)
    ensures exists k | i < k < j :: log[k] == M.PeerDisconnected(p)
  {
    OrderlyPrefix(log, j);
    AnnouncedSince(log[..j], p);
    assert log[..j][i] == M.PeerAuthenticated(p);
    var k :| i < k < j && log[..j][k] == M.PeerDisconnected(p);
    assert log[k] == M.PeerDisconnected(p);
  }

  /** A departure and an event of a peer both follow an arrival that no departure has undone. */
  lemma EventsFollowArrival(log: seq<M.TransportEvent>, p: PeerId, j: nat)
    requires Orderly(log) && j < |log| && (log[j] == M.PeerDisconnected(p) || (log[j].Domain? && log[j].peer == p))
    ensures exists i | 0 <= i < j ::
      log[i] == M.PeerAuthenticated(p) && forall k | i < k < j :: log[k] != M.PeerDisconnected(p)
  {
    OrderlyPrefix(log, j);
    AnnouncedSince(log[..j], p);
    var i :| 0 <= i < j && log[..j][i] == M.PeerAuthenticated(p)
             && forall k | i < k < j :: log[..j][k] != M.PeerDisconnected(p);
    assert log[i] == M.PeerAuthenticated(p) && forall k | i < k < j :: log[k] == log[..j][k];
  }
}
