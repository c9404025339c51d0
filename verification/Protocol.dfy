/** Sync events, the validation both ends apply, and what the millisecond wire format keeps. */
module Protocol {
  import opened Base
  import opened Names
  import opened Schedules

  const NANOS_PER_MILLI: nat := 1_000_000
  const PROTOCOL_VERSION: nat := 6

  datatype ActiveBreak = ActiveBreak(name: string, message: string, startedAtMs: nat, origin: Origin, lockAfter: bool)

  datatype SyncEvent =
    | ActiveTimeElapsed(elapsed: nat)
    | BreakStarted(name: string, message: string, startedAtMs: nat, origin: Origin, position: Position)
    | SchedulerState(slot: nat, activeElapsed: nat, last: map<string, nat>, activeBreak: Option<ActiveBreak>)
    | SchedulerReset
    | DisableFor(duration: nat)
    | DisableUntilRestart
    | Enable
    | LockAfterCurrentBreak

  datatype ProtocolError =
    | ZeroDuration
    | InvalidBreakName(name: string)
    | InvalidBreakSlot
    | InvalidSatisfiedSlot(name: string, slot: nat, lastSatisfiedSlot: nat)
    | UnsupportedVersion(version: nat)
    | InvalidHelloSequence(sequence: nat)
    | InvalidEventSequence

  predicate ValidSatisfiedSlots(slot: nat, last: map<string, nat>) {
    forall n | n in last :: ValidName(n) && last[n] <= slot
  }

  predicate ValidActiveBreak(b: ActiveBreak) { ValidName(b.name) && b.origin != Scheduled(0) }

  /** The events a peer accepts. */
  predicate ValidEvent(e: SyncEvent) {
    match e
    case ActiveTimeElapsed(elapsed) => elapsed > 0
    case DisableFor(duration) => duration > 0
    case BreakStarted(name, _, _, origin, position) =>
      ValidName(name) && origin != Scheduled(0) && ValidSatisfiedSlots(position.slot, position.last)
    case SchedulerState(slot, _, last, activeBreak) =>
      ValidSatisfiedSlots(slot, last) && (activeBreak.Some? ==> ValidActiveBreak(activeBreak.value))
    case _ => true
  }

  /** The fault an error names is one the event has. */
  predicate FaultIn(error: ProtocolError, e: SyncEvent) {
    match error
    case ZeroDuration => (e.ActiveTimeElapsed? && e.elapsed == 0) || (e.DisableFor? && e.duration == 0)
    case InvalidBreakName(name) => !ValidName(name) && name in NamesIn(e)
    case InvalidBreakSlot => Scheduled(0) in OriginsIn(e)
    case InvalidSatisfiedSlot(name, slot, lastSlot) =>
      lastSlot > slot && SlotIn(e) == Some(slot) && name in LastIn(e) && LastIn(e)[name] == lastSlot
    case _ => false
  }

  function LastIn(e: SyncEvent): map<string, nat> {
    match e
    case BreakStarted(_, _, _, _, position) => position.last
    case SchedulerState(_, _, last, _) => last
    case _ => map[]
  }

  function SlotIn(e: SyncEvent): Option<nat> {
    match e
    case BreakStarted(_, _, _, _, position) => Some(position.slot)
    case SchedulerState(slot, _, _, _) => Some(slot)
    case _ => None
  }

  function NamesIn(e: SyncEvent): set<string> {
    LastIn(e).Keys +
    match e
    case BreakStarted(name, _, _, _, _) => {name}
    case SchedulerState(_, _, _, Some(b)) => {b.name}
    case _ => {}
  }

  function OriginsIn(e: SyncEvent): set<Origin> {
    match e
    case BreakStarted(_, _, _, origin, _) => {origin}
    case SchedulerState(_, _, _, Some(b)) => {b.origin}
    case _ => {}
  }

  method ValidateLastSatisfiedSlots(slot: nat, last: map<string, nat>) returns (r: Result<(), ProtocolError>)
    ensures r.Ok? <==> ValidSatisfiedSlots(slot, last)
    ensures r.Err? ==>
      || (r.error.InvalidBreakName? && r.error.name in last && !ValidName(r.error.name))
      || (r.error.InvalidSatisfiedSlot? && r.error.name in last && r.error.slot == slot
          && r.error.lastSatisfiedSlot == last[r.error.name] && last[r.error.name] > slot)
  {
    var unchecked := last.Keys;
    while unchecked != {}
      invariant unchecked <= last.Keys
      invariant forall n | n in last.Keys - unchecked :: ValidName(n) && last[n] <= slot
      decreases unchecked
    {
      var n :| n in unchecked;
      if !ValidName(n) { return Err(InvalidBreakName(n)); }
      if last[n] > slot { return Err(InvalidSatisfiedSlot(n, slot, last[n])); }
      unchecked := unchecked - {n};
    }
    return Ok(());
  }

  /** Accepts exactly the valid events, and reports a fault that is there. */
  method Validate(e: SyncEvent) returns (r: Result<(), ProtocolError>)
    ensures r.Ok? <==> ValidEvent(e)
    ensures r.Err? ==> FaultIn(r.error, e)
  {
    match e
    case ActiveTimeElapsed(elapsed) => return if elapsed == 0 then Err(ZeroDuration) else Ok(());
    case DisableFor(duration) => return if duration == 0 then Err(ZeroDuration) else Ok(());
    case BreakStarted(name, _, _, origin, position) =>
      if !ValidName(name) { return Err(InvalidBreakName(name)); }
      if origin == Scheduled(0) { return Err(InvalidBreakSlot); }
      r := ValidateLastSatisfiedSlots(position.slot, position.last);
    case SchedulerState(slot, _, last, activeBreak) =>
      r := ValidateLastSatisfiedSlots(slot, last);
      if r.Err? || activeBreak.None? { return; }
      if !ValidName(activeBreak.value.name) { return Err(InvalidBreakName(activeBreak.value.name)); }
      if activeBreak.value.origin == Scheduled(0) { return Err(InvalidBreakSlot); }
    case _ => return Ok(());
  }

  datatype Payload = PeerHello(compatible: bool) | Event(event: SyncEvent)

  datatype Message = Message(version: nat, sender: nat, sequence: nat, payload: Payload)

  /** Sequence zero is reserved for the hello that opens a connection. */
  predicate ValidMessage(m: Message) {
    && m.version == PROTOCOL_VERSION
    && (m.payload.PeerHello? <==> m.sequence == 0)
    && (m.payload.Event? ==> ValidEvent(m.payload.event))
  }

  method ValidateMessage(m: Message) returns (r: Result<(), ProtocolError>)
    ensures r.Ok? <==> ValidMessage(m)
  {
    if m.version != PROTOCOL_VERSION { return Err(UnsupportedVersion(m.version)); }
    match m.payload
    case PeerHello(_) => return if m.sequence != 0 then Err(InvalidHelloSequence(m.sequence)) else Ok(());
    case Event(e) =>
      if m.sequence == 0 { return Err(InvalidEventSequence); }
      r := Validate(e);
  }

  /** The wire carries whole milliseconds. */
  function OnWireDuration(d: nat): (w: nat)
    ensures w <= d
  {
    QuotientOrder(d, NANOS_PER_MILLI);
    d - Remainder(d, NANOS_PER_MILLI)
  }

  lemma {:induction false} QuotientOrder(total: nat, unit: nat)
    requires unit > 0
    ensures Remainder(total, unit) <= total
  {
    if total >= unit { QuotientOrder(total - unit, unit); }
  }

  function OnWire(e: SyncEvent): SyncEvent {
    match e
    case ActiveTimeElapsed(elapsed) => ActiveTimeElapsed(OnWireDuration(elapsed))
    case DisableFor(duration) => DisableFor(OnWireDuration(duration))
    case BreakStarted(name, message, start, origin, p) =>
      BreakStarted(name, message, start, origin, p.(activeElapsed := OnWireDuration(p.activeElapsed)))
    case SchedulerState(slot, elapsed, last, b) => SchedulerState(slot, OnWireDuration(elapsed), last, b)
    case _ => e
  }

  function DurationIn(e: SyncEvent): nat {
    match e
    case ActiveTimeElapsed(elapsed) => elapsed
    case DisableFor(duration) => duration
    case BreakStarted(_, _, _, _, p) => p.activeElapsed
    case SchedulerState(_, elapsed, _, _) => elapsed
    case _ => 0
  }

  predicate WholeMillis(e: SyncEvent) { Remainder(DurationIn(e), NANOS_PER_MILLI) == 0 }

  /** A non-zero duration that the wire would round down to nothing. */
  predicate SubMillisecond(e: SyncEvent) {
    (e.ActiveTimeElapsed? || e.DisableFor?) && DurationIn(e) < NANOS_PER_MILLI
  }

  lemma {:induction false} RemainderOf(total: nat, unit: nat)
    requires unit > 0
    ensures Remainder(total, unit) == total <==> total < unit
    ensures Remainder(total, unit) <= total
    ensures Remainder(total - Remainder(total, unit), unit) == 0
  {
    if total >= unit {
      QuotientOrder(total - unit, unit);
      RemainderOf(total - unit, unit);
    }
  }

  /** The wire is lossless exactly for whole milliseconds, and sending again loses nothing more. */
  lemma WireRoundTrip(e: SyncEvent)
    ensures OnWire(e) == e <==> WholeMillis(e)
    ensures OnWire(OnWire(e)) == OnWire(e)
  {
    var unit := NANOS_PER_MILLI;
    var d := DurationIn(e);
    RemainderOf(d, unit);
    assert DurationIn(OnWire(e)) == OnWireDuration(d);
    assert OnWireDuration(OnWireDuration(d)) == OnWireDuration(d);
  }

  /**
   * A valid event is still valid when the peer has decoded it, except that a sub-millisecond
   * duration arrives as zero and is refused.
   */
  lemma ValidAfterWireIff(e: SyncEvent)
    requires ValidEvent(e)
    ensures ValidEvent(OnWire(e)) <==> !SubMillisecond(e)
  {
    RemainderOf(DurationIn(e), NANOS_PER_MILLI);
  }

  /** What a duration is after it has travelled: whole milliseconds, less than one short of it. */
  predicate Rounded(d: nat, w: nat) { w <= d < w + NANOS_PER_MILLI && Remainder(w, NANOS_PER_MILLI) == 0 }

  /** The same event to a peer: only its duration may be a fraction of a millisecond shorter. */
  predicate ArrivesAs(e: SyncEvent, f: SyncEvent) {
    match e
    case ActiveTimeElapsed(elapsed) => f.ActiveTimeElapsed? && Rounded(elapsed, f.elapsed)
    case DisableFor(duration) => f.DisableFor? && Rounded(duration, f.duration)
    case BreakStarted(name, message, at, origin, p) =>
      && f.BreakStarted? && f.name == name && f.message == message && f.startedAtMs == at && f.origin == origin
      && f.position.slot == p.slot && f.position.last == p.last && Rounded(p.activeElapsed, f.position.activeElapsed)
    case SchedulerState(slot, elapsed, last, activeBreak) =>
      && f.SchedulerState? && f.slot == slot && f.last == last && f.activeBreak == activeBreak
      && Rounded(elapsed, f.activeElapsed)
    case SchedulerReset => f == SchedulerReset
    case DisableUntilRestart => f == DisableUntilRestart
    case Enable => f == Enable
    case LockAfterCurrentBreak => f == LockAfterCurrentBreak
  }

  lemma OnWireArrives(e: SyncEvent)
    ensures ArrivesAs(e, OnWire(e))
  {
    RemainderOf(DurationIn(e), NANOS_PER_MILLI);
  }

  lemma WholeIsExact(d: nat, w: nat)
    requires Rounded(d, w) && Remainder(d, NANOS_PER_MILLI) == 0
    ensures d == w
  {
    QuotientAndRemainder(d, NANOS_PER_MILLI);
    QuotientAndRemainder(w, NANOS_PER_MILLI);
  }

  /** With whole milliseconds nothing is lost at all. */
  lemma WholeMillisArrive(e: SyncEvent, f: SyncEvent)
    requires ArrivesAs(e, f) && WholeMillis(e)
    ensures f == e
  {
    WholeIsExact(DurationIn(e), DurationIn(f));
  }
}
