/** Numbering of outgoing events within one transport session. */
module Sessions {
  import opened Base
  import opened Protocol
  import opened Connections

  const FIRST_EVENT_SEQUENCE: nat := 1
  const LAST_SEQUENCE: nat := 0xFFFF_FFFF_FFFF_FFFF

  /** An event as it travels: numbered, attributed, with its durations in whole milliseconds. */
  datatype Frame = Frame(sender: PeerId, sequence: nat, event: SyncEvent)

  datatype EncodeError = SequenceExhausted | ProtocolFailure

  datatype Encoded = Encoded(next: nat, frame: Result<Frame, EncodeError>)

  /** Encoding fails on an invalid event or when it cannot be serialized; only success takes a number. */
  function Encode(self: PeerId, next: nat, event: SyncEvent, serializable: bool): Encoded {
    if next == LAST_SEQUENCE then Encoded(next, Err(SequenceExhausted))
    else if !ValidMessage(Message(PROTOCOL_VERSION, self, next, Event(event))) || !serializable then
      Encoded(next, Err(ProtocolFailure))
    else Encoded(next + 1, Ok(Frame(self, next, OnWire(event))))
  }

  class TransportSession {
    const self: PeerId
    var nextSequence: nat

    constructor (self: PeerId)
      ensures this.self == self && nextSequence == FIRST_EVENT_SEQUENCE
    {
      this.self := self;
      nextSequence := FIRST_EVENT_SEQUENCE;
    }

    method EncodeEvent(event: SyncEvent, serializable: bool) returns (frame: Result<Frame, EncodeError>)
      modifies this
      ensures Encoded(nextSequence, frame) == Encode(self, old(nextSequence), event, serializable)
    {
      var sequence := nextSequence;
      if sequence == LAST_SEQUENCE { return Err(SequenceExhausted); }
      var valid := ValidateMessage(Message(PROTOCOL_VERSION, self, sequence, Event(event)));
      if valid.Err? || !serializable { return Err(ProtocolFailure); }
      nextSequence := nextSequence + 1;
      return Ok(Frame(self, sequence, OnWire(event)));
    }
  }

  /** One attempt to send, and whether serialization succeeds. */
  datatype Attempt = Attempt(event: SyncEvent, serializable: bool)

  /** The frames a session produces for a list of attempts, and its counter afterwards. */
  datatype Batch = Batch(frames: seq<Frame>, next: nat)

  function EncodeAll(self: PeerId, next: nat, attempts: seq<Attempt>): Batch
    decreases |attempts|
  {
    if attempts == [] then Batch([], next)
    else
      var head := Encode(self, next, attempts[0].event, attempts[0].serializable);
      var rest := EncodeAll(self, head.next, attempts[1..]);
      if head.frame.Ok? then Batch([head.frame.value] + rest.frames, rest.next) else rest
  }

  /** The frames of a session carry consecutive numbers below the limit: failures use up none. */
  lemma {:induction false} NumbersAreConsecutive(self: PeerId, next: nat, attempts: seq<Attempt>)
    requires 1 <= next <= LAST_SEQUENCE
    ensures var b := EncodeAll(self, next, attempts);
      && b.next == next + |b.frames| <= LAST_SEQUENCE
      && forall i | 0 <= i < |b.frames| :: b.frames[i].sender == self && b.frames[i].sequence == next + i
    decreases |attempts|
  {
    if attempts != [] {
      var head := Encode(self, next, attempts[0].event, attempts[0].serializable);
      NumbersAreConsecutive(self, head.next, attempts[1..]);
    }
  }
}
