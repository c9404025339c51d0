/**
 * From the commands given to one worker to the events another one hands on, and what the one who gave
 * the command is told.
 */
module CommandsArrive {
  import opened Base
  import opened Protocol
  import opened Connections
  import opened Sessions
  import opened TrackerInvariant
  import opened WorkerModel
  import opened EndToEnd
  import D = Delivery

  predicate Command(input: Input) { input.BroadcastCommand? || input.SendCommand? }

  /** The peer a command is for is connected, or it is for all. */
  predicate Addressed(w: Worker, input: Input) {
    input.BroadcastCommand? || (input.SendCommand? && input.peer in Online(w.tracker.connections))
  }

  /** An event the session takes: numbers are left, it is valid, and it can be serialized. */
  predicate Takeable(w: Worker, input: Input)
    requires Command(input)
  {
    w.nextSequence != LAST_SEQUENCE && ValidEvent(input.event) && input.serializable
  }

  predicate Goes(w: Worker, input: Input) { Command(input) && Addressed(w, input) && Takeable(w, input) }

  /** The events of the commands that go out, in order. */
  function Commanded(w: Worker, inputs: seq<Input>): seq<SyncEvent>
    decreases |inputs|
  {
    if inputs == [] then []
    else (if Goes(w, inputs[0]) then [inputs[0].event] else []) + Commanded(Next(w, inputs[0]), inputs[1..])
  }

  // ----- one command -----

  predicate Carries(f: Frame, w: Worker, event: SyncEvent) {
    f.sender == w.tracker.self && f.sequence == w.nextSequence && ArrivesAs(event, f.event)
  }

  /** Exactly a command that goes out has a frame, with the next number and its own event. */
  lemma CommandIsNumbered(w: Worker, input: Input)
    requires 0 < w.nextSequence
    ensures |Numbered(w, input)| == if Goes(w, input) then 1 else 0
    ensures Goes(w, input) ==> Carries(Numbered(w, input)[0], w, input.event)
  {
    if Command(input) { OnWireArrives(input.event); }
  }

  /** Two lists of events, one as the other arrives. */
  predicate AllArriveAs(events: seq<SyncEvent>, arrived: seq<SyncEvent>) {
    |arrived| == |events| && forall i | 0 <= i < |events| :: ArrivesAs(events[i], arrived[i])
  }

  function EventsOfFrames(frames: seq<Frame>): (events: seq<SyncEvent>)
    ensures |events| == |frames| && forall i | 0 <= i < |frames| :: events[i] == frames[i].event
  {
    seq(|frames|, i requires 0 <= i < |frames| => frames[i].event)
  }

  /** Over every run, the session's frames carry the events of the commands that went out, one each, in order. */
  lemma {:induction false} SessionCarriesCommands(w: Worker, inputs: seq<Input>)
    requires 0 < w.nextSequence
    ensures AllArriveAs(Commanded(w, inputs), EventsOfFrames(SessionFrames(w, inputs)))
    decreases |inputs|
  {
    if inputs != [] {
      CommandIsNumbered(w, inputs[0]);
      StepCounts(w, inputs[0]);
      SessionCarriesCommands(Next(w, inputs[0]), inputs[1..]);
    }
  }

  /** Where the frame of a command goes: to all authenticated endpoints, or to that of its peer. */
  predicate Reaches(w: Worker, input: Input, e: Endpoint) {
    && Goes(w, input) && e !in input.failing
    && (if input.BroadcastCommand? then PeerOf(w.tracker.connections, e).Some?
        else PeerOf(w.tracker.connections, e) == Some(input.peer))
  }

  /** Some frame with the next number and the event is what is added, or nothing. */
  predicate Adds(w: Worker, event: SyncEvent, before: seq<Frame>, after: seq<Frame>, reached: bool) {
    if reached then
      |after| == |before| + 1 && after[..|before|] == before && Carries(after[|before|], w, event)
    else after == before
  }

  lemma PostCarries(w: Worker, input: Input, e: Endpoint)
    requires Sound(w.tracker) && 0 < w.nextSequence && Command(input)
    ensures |PostTo(w, input, e)| == if Reaches(w, input, e) then 1 else 0
    ensures Reaches(w, input, e) ==> Carries(PostTo(w, input, e)[0], w, input.event)
  {
    OnWireArrives(input.event);
    LookupOnline(w.tracker.connections, e);
    if input.SendCommand? { HeldOnce(w.tracker.connections, input.peer, e); }
  }

  /**
   * A command that goes out puts one frame with its event on each endpoint it is for and that takes it;
   * nothing else goes on any.
   */
  lemma CommandReaches(w: Worker, input: Input, e: Endpoint)
    requires Sound(w.tracker) && 0 < w.nextSequence && Command(input)
    ensures Adds(w, input.event, FramesTo(w.wire, e), FramesTo(Next(w, input).wire, e), Reaches(w, input, e))
  {
    CommandPosts(w, input, e);
    PostCarries(w, input, e);
    var before := FramesTo(w.wire, e);
    assert (before + PostTo(w, input, e))[..|before|] == before;
  }

  /** In a sound list the connection found for a peer is the only one it has. */
  lemma {:induction false} HeldOnce(cs: seq<Connection>, p: PeerId, e: Endpoint)
    requires OneEach(cs)
    ensures EndpointForPeer(cs, p) == Some(e) <==> PeerOf(cs, e) == Some(p)
  {
    if cs != [] {
      HeldOnce(cs[1..], p, e);
      LookupOnline(cs[1..], e);
    }
  }

  /** A session counts from one; zero is the hello's. */
  lemma SessionCountsFromOne(sender: PeerId, sent: seq<Input>, i: nat)
    requires i < |SessionFrames(New(sender), sent)|
    ensures var f := SessionFrames(New(sender), sent)[i];
      f.sender == sender && f.sequence == i + 1
  {
    SessionIsConsecutive(New(sender), sent);
  }

  // ----- the answer -----

  lemma {:induction false} FanoutCounts(w: Worker, es: seq<Endpoint>, frame: Frame, failing: set<Endpoint>)
    ensures var out := SendEach(w, es, frame, failing);
      |out.after.wire| == |w.wire| + out.count && w.wire <= out.after.wire
    decreases |es|
  {
    if es != [] { FanoutCounts(SendPayload(w, es[0], frame, failing).after, es[1..], frame, failing); }
  }

  /**
   * Who gave the command learns how many connections took the frame, or whether the peer's did, or why it
   * was refused: no numbers left before anything else. A peer that is not connected comes first of all.
   */
  lemma AnswerMeans(w: Worker, input: Input)
    requires Command(input) && 0 < w.nextSequence
    ensures var h := Handle(w, input);
      var posted := |h.after.wire| - |w.wire|;
      if !Addressed(w, input) then h == Handled(w, Delivered(false))
      else if w.nextSequence == LAST_SEQUENCE then h == Handled(w, Refused(SequenceExhausted))
      else if !Takeable(w, input) then h == Handled(w, Refused(ProtocolFailure))
      else
        && w.wire <= h.after.wire && h.after.nextSequence == w.nextSequence + 1
        && (input.BroadcastCommand? ==> h.reply == SentTo(posted))
        && (input.SendCommand? ==> posted <= 1 && h.reply == Delivered(posted == 1))
  {
    if input.BroadcastCommand? && Takeable(w, input) {
      var encoded := Encode(w.tracker.self, w.nextSequence, input.event, input.serializable);
      var numbered := w.(nextSequence := encoded.next);
      FanoutCounts(numbered, AuthenticatedEndpoints(w.tracker.connections), encoded.frame.value, input.failing);
      SendEachCounts(numbered, AuthenticatedEndpoints(w.tracker.connections), encoded.frame.value, input.failing);
    }
  }

  // ----- from command to daemon -----

  lemma {:induction false} EventsOfMessages(messages: seq<Message>)
    requires forall i | 0 <= i < |messages| :: messages[i].payload.Event?
    ensures |EventsIn(messages)| == |messages|
    ensures forall i | 0 <= i < |messages| :: EventsIn(messages)[i] == messages[i].payload.event
  {
    if messages != [] { EventsOfMessages(messages[1..]); }
  }

  lemma {:induction false} PickedMessages(frames: seq<Frame>, picked: seq<nat>)
    requires forall k | 0 <= k < |picked| :: picked[k] < |frames|
    ensures |Picked(frames, picked)| == |picked|
    ensures forall k | 0 <= k < |picked| :: Picked(frames, picked)[k] == Decoded(frames[picked[k]])
  {
    if picked != [] { PickedMessages(frames, picked[1..]); }
  }

  /**
   * Let a worker be given any commands, and any of its frames reach another one in order, over whatever
   * connections. The other one's daemon is then given exactly the events of those commands, each once and
   * in the order they were given, at most a fraction of a millisecond short.
   */
  lemma CommandsArriveOnce(sender: PeerId, sent: seq<Input>, picked: seq<nat>, receiver: PeerId, received: seq<Input>)
    requires var frames := SessionFrames(New(sender), sent);
      && D.Ascending(picked, |frames|, 0)
      && (forall k | 0 <= k < |picked| :: picked[k] < |frames|)
      && ArrivalsFrom(received, sender) == Picked(frames, picked)
    requires Attributed(New(receiver), received, sender)
    ensures var handedOn := EventsOf(Run(New(receiver), received).emitted, sender);
      var commanded := Commanded(New(sender), sent);
      && |handedOn| == |picked|
      && forall k | 0 <= k < |picked| :: picked[k] < |commanded| && ArrivesAs(commanded[picked[k]], handedOn[k])
  {
    var frames := SessionFrames(New(sender), sent);
    EventsArriveOnce(sender, sent, picked, receiver, received);
    SessionCarriesCommands(New(sender), sent);
    PickedMessages(frames, picked);
    EventsOfMessages(Picked(frames, picked));
  }

  /** The message carries the event of the command with its number; the first command has the number given. */
  predicate Numbers(commanded: seq<SyncEvent>, first: nat, m: Message) {
    && first <= m.sequence < first + |commanded| && m.payload.Event?
    && ArrivesAs(commanded[m.sequence - first], m.payload.event)
  }

  predicate IsOf(m: Message, frames: seq<Frame>) { exists i | 0 <= i < |frames| :: m == Decoded(frames[i]) }

  lemma MessageIsOf(m: Message, frames: seq<Frame>, f: Frame)
    requires f in frames && m == Decoded(f)
    ensures IsOf(m, frames)
  {
    var i :| 0 <= i < |frames| && frames[i] == f;
    assert m == Decoded(frames[i]);
  }

  lemma AllAreOf(messages: seq<Message>, frames: seq<Frame>)
    requires forall i | 0 <= i < |messages| :: exists f | f in frames :: messages[i] == Decoded(f)
    ensures forall i | 0 <= i < |messages| :: IsOf(messages[i], frames)
  {
    forall i | 0 <= i < |messages| ensures IsOf(messages[i], frames) {
      var f :| f in frames && messages[i] == Decoded(f);
      MessageIsOf(messages[i], frames, f);
    }
  }

  lemma NumbersOfMessages(
    frames: seq<Frame>, commanded: seq<SyncEvent>, sender: PeerId, first: nat, messages: seq<Message>)
    requires Consecutive(frames, sender, first) && AllArriveAs(commanded, EventsOfFrames(frames))
    requires forall i | 0 <= i < |messages| :: IsOf(messages[i], frames)
    ensures forall i | 0 <= i < |messages| :: Numbers(commanded, first, messages[i])
  {
    forall i | 0 <= i < |messages| ensures Numbers(commanded, first, messages[i]) {
      assert IsOf(messages[i], frames);
      var k :| 0 <= k < |frames| && messages[i] == Decoded(frames[k]);
      assert frames[k].sequence == first + k && ArrivesAs(commanded[k], EventsOfFrames(frames)[k]);
    }
  }

  /** The same from the wire: the event handed on is that of the command whose number the message carries. */
  lemma WireDeliversCommands(sender: PeerId, sent: seq<Input>, receiver: PeerId, received: seq<Input>)
    requires FromWire(ArrivalsFrom(received, sender), Run(New(sender), sent).wire)
    requires D.Increasing(Sequences(ArrivalsFrom(received, sender)), None)
    requires Attributed(New(receiver), received, sender)
    ensures var messages := ArrivalsFrom(received, sender);
      var handedOn := EventsOf(Run(New(receiver), received).emitted, sender);
      && |handedOn| == |messages|
      && forall i | 0 <= i < |messages| ::
           Numbers(Commanded(New(sender), sent), 1, messages[i]) && handedOn[i] == messages[i].payload.event
  {
    var messages := ArrivalsFrom(received, sender);
    var frames := SessionFrames(New(sender), sent);
    WireEventsArriveOnce(sender, sent, receiver, received);
    AllAreOf(messages, frames);
    SessionIsConsecutive(New(sender), sent);
    SessionCarriesCommands(New(sender), sent);
    NumbersOfMessages(frames, Commanded(New(sender), sent), sender, 1, messages);
    EventsOfMessages(messages);
  }
}
