/** A network of daemons goes quiet: handling what peers sent cannot keep messages circulating. */
module Network {
  import opened Base
  import opened Schedules
  import opened Protocol
  import opened RuntimeModel
  import opened RuntimeRuns

  /** What a remote event makes a daemon send: nothing, or one break start caused by remote active time. */
  predicate QuietReply(e: SyncEvent, before: seq<Outgoing>, after: seq<Outgoing>) {
    || after == before
    || (e.ActiveTimeElapsed? && |after| == |before| + 1 && after[..|before|] == before
        && after[|before|].Broadcast? && after[|before|].event.BreakStarted?)
  }

  lemma ObserveIsQuiet(r: Runtime, env: Env, elapsed: nat)
    requires r.Valid()
    ensures QuietReply(ActiveTimeElapsed(elapsed), r.sent, ObserveActive(r, env, elapsed, Suppress, Forward).after.sent)
  {
  }

  lemma SyncedStartIsSilent(r: Runtime, env: Env, peer: PeerId, start: SyncedStart)
    ensures ApplySyncedBreakStart(r, env, peer, start).after.sent == r.sent
  {
  }

  lemma RemoteEventIsQuiet(r: Runtime, env: Env, peer: PeerId, e: SyncEvent)
    requires r.Valid()
    ensures QuietReply(e, r.sent, HandleSyncEvent(r, env, peer, e).after.sent)
  {
    match e
    case ActiveTimeElapsed(elapsed) => ObserveIsQuiet(r, env, elapsed);
    case BreakStarted(name, message, at, origin, position) =>
      SyncedStartIsSilent(r, env, peer, SyncedStart(name, message, at, origin, position, None));
    case SchedulerState(slot, elapsed, last, Some(b)) =>
      SyncedStartIsSilent(r, env, peer,
        SyncedStart(b.name, b.message, b.startedAtMs, b.origin, Position(slot, elapsed, last), Some(b.lockAfter)));
    case _ =>
  }

  datatype Packet = Packet(source: nat, target: nat, event: SyncEvent)

  /** Fully connected daemons and the messages between them, in no particular order. */
  datatype Net = Net(peers: seq<Runtime>, ids: seq<PeerId>, inFlight: seq<Packet>)
  {
    predicate Valid() {
      && |ids| == |peers|
      && (forall i | 0 <= i < |peers| :: peers[i].Valid())
      && (forall p | p in inFlight :: p.source < |peers| && p.target < |peers|)
    }
  }

  /** A broadcast goes to every other daemon. */
  function Fan(source: nat, event: SyncEvent, n: nat): (packets: seq<Packet>)
    ensures forall p | p in packets :: p.source == source && p.target < n && p.event == event
    ensures |packets| == if source < n then n - 1 else n
  {
    if n == 0 then []
    else Fan(source, event, n - 1) + if source == n - 1 then [] else [Packet(source, n - 1, event)]
  }

  function FanAll(source: nat, sent: seq<Outgoing>, n: nat): (packets: seq<Packet>)
    requires source < n
    ensures forall p | p in packets :: p.source == source && p.target < n
  {
    if sent == [] then []
    else (if sent[0].Broadcast? then Fan(source, sent[0].event, n) else []) + FanAll(source, sent[1..], n)
  }

  datatype NetStep = Deliver(index: nat, env: Env) | Lose(index: nat)

  predicate Enabled(net: Net, step: NetStep) { step.index < |net.inFlight| }

  function Without(packets: seq<Packet>, k: nat): (rest: seq<Packet>)
    requires k < |packets|
    ensures forall p | p in rest :: p in packets
  {
    packets[..k] + packets[k + 1..]
  }

  /** Any message may be delivered next, or be lost, as when its target has stopped. */
  function TakeStep(net: Net, step: NetStep): (after: Net)
    requires net.Valid() && Enabled(net, step)
    ensures after.Valid() && |after.peers| == |net.peers|
  {
    var packet := net.inFlight[step.index];
    var rest := Without(net.inFlight, step.index);
    if step.Lose? then net.(inFlight := rest)
    else
      var turn := Turn(step.env, Sync(Domain(net.ids[packet.source], packet.event)));
      var after := TakeTurn(net.peers[packet.target], turn).after;
      net.(peers := net.peers[packet.target := after],
           inFlight := rest + FanAll(packet.target, after.sent, |net.peers|))
  }

  /** Remote active time may still set off one start for every other daemon; anything else is settled. */
  function Weight(e: SyncEvent, n: nat): nat { if e.ActiveTimeElapsed? then n else 1 }

  function TotalWeight(packets: seq<Packet>, n: nat): nat {
    if packets == [] then 0 else Weight(packets[0].event, n) + TotalWeight(packets[1..], n)
  }

  lemma {:induction false} WeightOfConcat(a: seq<Packet>, b: seq<Packet>, n: nat)
    ensures TotalWeight(a + b, n) == TotalWeight(a, n) + TotalWeight(b, n)
  {
    if a == [] {
      assert a + b == b;
    } else {
      assert (a + b)[1..] == a[1..] + b;
      WeightOfConcat(a[1..], b, n);
    }
  }

  lemma WeightWithout(packets: seq<Packet>, k: nat, n: nat)
    requires k < |packets|
    ensures TotalWeight(packets, n) == TotalWeight(Without(packets, k), n) + Weight(packets[k].event, n)
  {
    assert packets == packets[..k] + packets[k..];
    WeightOfConcat(packets[..k], packets[k..], n);
    WeightOfConcat(packets[..k], packets[k + 1..], n);
  }

  lemma {:induction false} WeightOfStarts(packets: seq<Packet>, n: nat)
    requires forall p | p in packets :: p.event.BreakStarted?
    ensures TotalWeight(packets, n) == |packets|
  {
    if packets != [] {
      WeightOfStarts(packets[1..], n);
    }
  }

  /** Every delivery or loss makes the messages in flight lighter. */
  lemma StepLightens(net: Net, step: NetStep)
    requires net.Valid() && Enabled(net, step)
    ensures TotalWeight(TakeStep(net, step).inFlight, |net.peers|) < TotalWeight(net.inFlight, |net.peers|)
  {
    var n := |net.peers|;
    var packet := net.inFlight[step.index];
    var rest := Without(net.inFlight, step.index);
    WeightWithout(net.inFlight, step.index, n);
    if step.Deliver? {
      var peer := net.ids[packet.source];
      var turn := Turn(step.env, Sync(Domain(peer, packet.event)));
      var sent := TakeTurn(net.peers[packet.target], turn).after.sent;
      ReplyWeight(net.peers[packet.target], step.env, peer, packet.event, packet.target, n);
      WeightOfConcat(rest, FanAll(packet.target, sent, n), n);
    }
  }

  lemma ReplyWeight(r: Runtime, env: Env, peer: PeerId, e: SyncEvent, target: nat, n: nat)
    requires r.Valid() && target < n
    ensures TotalWeight(FanAll(target, TakeTurn(r, Turn(env, Sync(Domain(peer, e)))).after.sent, n), n) < Weight(e, n)
  {
    var sent := TakeTurn(r, Turn(env, Sync(Domain(peer, e)))).after.sent;
    RemoteEventIsQuiet(Drained(r), env, peer, e);
    if sent != [] {
      FanOfOne(target, sent, n);
      WeightOfStarts(FanAll(target, sent, n), n);
    }
  }

  lemma FanOfOne(source: nat, sent: seq<Outgoing>, n: nat)
    requires source < n && |sent| == 1 && sent[0].Broadcast?
    ensures FanAll(source, sent, n) == Fan(source, sent[0].event, n)
  {
    assert sent[1..] == [];
  }

  function Steps(net: Net, steps: seq<NetStep>): (after: Net)
    requires net.Valid()
    ensures after.Valid() && |after.peers| == |net.peers|
    decreases |steps|
  {
    if steps == [] || !Enabled(net, steps[0]) then net else Steps(TakeStep(net, steps[0]), steps[1..])
  }

  predicate AllEnabled(net: Net, steps: seq<NetStep>)
    requires net.Valid()
    decreases |steps|
  {
    steps == [] || (Enabled(net, steps[0]) && AllEnabled(TakeStep(net, steps[0]), steps[1..]))
  }

  /** Without new local input, at most as many deliveries happen as the messages in flight weigh. */
  lemma {:induction false} NetworkGoesQuiet(net: Net, steps: seq<NetStep>)
    requires net.Valid() && AllEnabled(net, steps)
    ensures |steps| + TotalWeight(Steps(net, steps).inFlight, |net.peers|) <= TotalWeight(net.inFlight, |net.peers|)
    decreases |steps|
  {
    if steps != [] {
      StepLightens(net, steps[0]);
      NetworkGoesQuiet(TakeStep(net, steps[0]), steps[1..]);
    }
  }
}
