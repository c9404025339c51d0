/** Peers that hear of competing break starts end up showing the same break. */
module Convergence {
  import opened Base
  import opened Schedules
  import opened RuntimeModel
  import L = Lockstep

  // ----- two peers -----

  /**
   * When two different peers each show a break and hear of the other's, exactly one of them
   * yields, whatever kinds of break they are.
   */
  lemma ExactlyOneYields(a: PeerId, b: PeerId, shownByA: CurrentBreak, shownByB: CurrentBreak)
    requires a != b
    ensures SyncedBreakReplacesCurrent(shownByA, Some(a), b, shownByB.origin, shownByB.startedAtMs)
      <==> !SyncedBreakReplacesCurrent(shownByB, Some(b), a, shownByA.origin, shownByA.startedAtMs)
  {
  }

  /**
   * Two breaks of other peers displace each other at a third peer, so that the last to arrive
   * stays, exactly when they tie and both senders have lower ids than the receiver.
   */
  lemma TieIsOrderDependentIff(local: Option<PeerId>, p: PeerId, q: PeerId, ofP: CurrentBreak, ofQ: CurrentBreak)
    ensures (&& SyncedBreakReplacesCurrent(ofP, local, q, ofQ.origin, ofQ.startedAtMs)
             && SyncedBreakReplacesCurrent(ofQ, local, p, ofP.origin, ofP.startedAtMs))
      <==> (&& ofP.startedAtMs == ofQ.startedAtMs
            && (ofP.origin.Scheduled? && ofQ.origin.Scheduled? ==> ofP.origin.slot == ofQ.origin.slot)
            && local.Some? && p < local.value && q < local.value)
  {
  }

  /** At a daemon showing `b`, hearing of `a` from any peer: `a` takes over. Start times are distinct. */
  predicate Displaces(a: CurrentBreak, b: CurrentBreak) {
    SyncedBreakReplacesCurrent(b, None, 0, a.origin, a.startedAtMs)
  }

  predicate InACircle(a: CurrentBreak, b: CurrentBreak, c: CurrentBreak) {
    Displaces(a, b) && Displaces(b, c) && Displaces(c, a)
  }

  /** A manual break that began between two scheduled ones, the later of which has the later slot. */
  predicate Wedged(low: CurrentBreak, manual: CurrentBreak, high: CurrentBreak) {
    && low.origin.Scheduled? && manual.origin.Manual? && high.origin.Scheduled?
    && low.origin.slot < high.origin.slot
    && low.startedAtMs < manual.startedAtMs < high.startedAtMs
  }

  /**
   * Three breaks with distinct start times displace each other in a circle, so that no one of them
   * can win everywhere, exactly when a manual one is wedged between two scheduled ones.
   */
  lemma CircleIffWedged(a: CurrentBreak, b: CurrentBreak, c: CurrentBreak)
    requires a.startedAtMs != b.startedAtMs && b.startedAtMs != c.startedAtMs && a.startedAtMs != c.startedAtMs
    ensures InACircle(a, b, c) || InACircle(a, c, b)
      <==> || Wedged(a, b, c) || Wedged(a, c, b) || Wedged(b, a, c)
           || Wedged(b, c, a) || Wedged(c, a, b) || Wedged(c, b, a)
  {
  }

  /** Such breaks exist. */
  lemma MixedOriginsAreCyclic()
    ensures var early := CurrentBreak("a", "", Scheduled(1), false, 1);
      var manual := CurrentBreak("b", "", Manual, false, 2);
      var late := CurrentBreak("c", "", Scheduled(2), false, 3);
      InACircle(late, manual, early) || InACircle(late, early, manual)
  {
    CircleIffWedged(CurrentBreak("a", "", Scheduled(1), false, 1), CurrentBreak("b", "", Manual, false, 2),
                    CurrentBreak("c", "", Scheduled(2), false, 3));
  }

  /** Whether an announced break takes over is the conflict rule, less a slot already passed. */
  lemma UnexpiredStartTakesOverIff(r: Runtime, env: Env, peer: PeerId, start: SyncedStart, rule: Rule)
    requires r.Valid() && env.backendUp && r.current.Some? && start.origin != Scheduled(0)
    requires FindRule(r.scheduler.Rules(), start.name) == Some(rule)
    requires Remaining(env.laterNow, start.startedAtMs, rule.duration) > 0
    ensures var after := ApplySyncedBreakStart(r, env, peer, start).after.current;
      var wins := SyncedBreakReplacesCurrent(r.current.value, r.localPeer, peer, start.origin, start.startedAtMs)
        && (start.origin.Scheduled? ==> r.scheduler.slot <= start.origin.slot);
      if wins then after.Some? && Shows(after.value, start) else after == r.current
  {
  }

  predicate Shows(c: CurrentBreak, start: SyncedStart) {
    && c.name == start.name && c.message == start.message
    && c.origin == start.origin && c.startedAtMs == start.startedAtMs
  }

  predicate Deliverable(r: Runtime, env: Env, start: SyncedStart) {
    && env.backendUp && start.origin != Scheduled(0)
    && FindRule(r.scheduler.Rules(), start.name).Some?
    && Remaining(env.laterNow, start.startedAtMs, FindRule(r.scheduler.Rules(), start.name).value.duration) > 0
  }

  /** The winner of the conflict rule at `r` has a slot the receiver has already passed. */
  predicate Refused(r: Runtime, peer: PeerId, start: SyncedStart)
    requires r.current.Some?
  {
    && SyncedBreakReplacesCurrent(r.current.value, r.localPeer, peer, start.origin, start.startedAtMs)
    && start.origin.Scheduled? && start.origin.slot < r.scheduler.slot
  }

  /**
   * Two peers that exchange their announcements show the same break afterwards exactly when
   * neither refuses the winner (unless both already announced the same break).
   */
  lemma TwoPeersConvergeIff(
    a: Runtime, b: Runtime, idA: PeerId, idB: PeerId, envA: Env, envB: Env, startA: SyncedStart, startB: SyncedStart)
    requires a.Valid() && b.Valid() && a.scheduler.schedule == b.scheduler.schedule
    requires idA != idB && a.localPeer == Some(idA) && b.localPeer == Some(idB)
    requires a.current.Some? && b.current.Some?
    requires Shows(a.current.value, startA) && Shows(b.current.value, startB)
    requires Deliverable(a, envA, startB) && Deliverable(b, envB, startA)
    ensures var afterA := ApplySyncedBreakStart(a, envA, idB, startB).after.current;
      var afterB := ApplySyncedBreakStart(b, envB, idA, startA).after.current;
      && afterA.Some? && afterB.Some?
      && (SameBreak(afterA.value, afterB.value) <==>
            SameBreak(a.current.value, b.current.value) || (!Refused(a, idB, startB) && !Refused(b, idA, startA)))
  {
    ExactlyOneYields(idA, idB, a.current.value, b.current.value);
    UnexpiredStartTakesOverIff(a, envA, idB, startB, FindRule(a.scheduler.Rules(), startB.name).value);
    UnexpiredStartTakesOverIff(b, envB, idA, startA, FindRule(b.scheduler.Rules(), startA.name).value);
  }

  predicate SameBreak(a: CurrentBreak, b: CurrentBreak) {
    a.name == b.name && a.message == b.message && a.origin == b.origin && a.startedAtMs == b.startedAtMs
  }

  // ----- any number of peers, scheduled breaks -----

  /** A scheduled break as its sender announces it: the position is the one the break starts at. */
  predicate ScheduledStart(rules: seq<Rule>, e: SyncedStart) {
    && e.origin.Scheduled? && e.origin.slot > 0 && e.position.slot == e.origin.slot
    && e.lockAfter.None? && FindRule(rules, e.name).Some?
  }

  /** Later slot first, then earlier start. */
  predicate Beats(a: SyncedStart, b: SyncedStart)
    requires a.origin.Scheduled? && b.origin.Scheduled?
  {
    a.origin.slot > b.origin.slot || (a.origin.slot == b.origin.slot && a.startedAtMs < b.startedAtMs)
  }

  /** One announcement arriving at a peer, with the readings taken then. */
  datatype Delivery = Delivery(env: Env, peer: PeerId, start: SyncedStart)

  function Deliver(r: Runtime, d: Delivery): Runtime
    requires r.Valid()
    ensures Deliver(r, d).Valid() && Same(r, Deliver(r, d))
  {
    ApplySyncedBreakStart(r, d.env, d.peer, d.start).after
  }

  function DeliverAll(r: Runtime, ds: seq<Delivery>): (after: Runtime)
    requires r.Valid()
    ensures after.Valid()
    decreases |ds|
  {
    if ds == [] then r else DeliverAll(Deliver(r, ds[0]), ds[1..])
  }

  /** The backend takes commands and the break is not over when its announcement arrives. */
  predicate Unexpired(rules: seq<Rule>, d: Delivery) {
    && ScheduledStart(rules, d.start) && d.env.backendUp
    && Remaining(d.env.laterNow, d.start.startedAtMs, FindRule(rules, d.start.name).value.duration) > 0
  }

  /** What the peer shows: nothing yet, with its own position, or one of the announced breaks. */
  predicate At(r: Runtime, base: nat, best: Option<SyncedStart>) {
    match best
    case None => r.current.None? && r.scheduler.state.Ready? && r.scheduler.slot == base
    case Some(e) =>
      && e.origin.Scheduled? && base <= e.origin.slot
      && r.current.Some? && Shows(r.current.value, e) && r.scheduler.slot == e.origin.slot
  }

  /** The best of the breaks heard of so far that are not behind the peer's own slot. */
  function Better(base: nat, best: Option<SyncedStart>, e: SyncedStart): Option<SyncedStart>
    requires e.origin.Scheduled? && (best.Some? ==> best.value.origin.Scheduled?)
  {
    match best
    case None => if e.origin.slot < base then None else Some(e)
    case Some(b) => if Beats(e, b) then Some(e) else Some(b)
  }

  predicate Distinct(a: SyncedStart, b: SyncedStart) {
    a == b || a.origin != b.origin || a.startedAtMs != b.startedAtMs
  }

  lemma FirstDelivery(r: Runtime, base: nat, d: Delivery)
    requires r.Valid() && At(r, base, None) && Unexpired(r.scheduler.Rules(), d)
    ensures At(Deliver(r, d), base, Better(base, None, d.start))
  {
  }

  lemma LaterDelivery(r: Runtime, base: nat, shown: SyncedStart, d: Delivery)
    requires r.Valid() && At(r, base, Some(shown)) && Unexpired(r.scheduler.Rules(), d)
    requires Distinct(shown, d.start)
    ensures At(Deliver(r, d), base, Better(base, Some(shown), d.start))
  {
    UnexpiredStartTakesOverIff(r, d.env, d.peer, d.start, FindRule(r.scheduler.Rules(), d.start.name).value);
    SlotAfterDelivery(r, d);
  }

  lemma SlotAfterDelivery(r: Runtime, d: Delivery)
    requires r.Valid() && r.current.Some? && Unexpired(r.scheduler.Rules(), d)
    ensures Deliver(r, d).scheduler.slot == Max(r.scheduler.slot, d.start.origin.slot) || Deliver(r, d) == r
    ensures Deliver(r, d) == r ==> r.scheduler.slot >= d.start.origin.slot
  {
  }

  predicate WinsOver(w: SyncedStart, e: SyncedStart) {
    w == e || (w.origin.Scheduled? && e.origin.Scheduled? && Beats(w, e))
  }

  lemma OneDelivery(r: Runtime, base: nat, best: Option<SyncedStart>, d: Delivery, w: SyncedStart)
    requires r.Valid() && At(r, base, best) && Unexpired(r.scheduler.Rules(), d)
    requires best.Some? ==> Distinct(best.value, d.start) && WinsOver(w, best.value)
    requires w.origin.Scheduled? && WinsOver(w, d.start)
    ensures var next := Better(base, best, d.start);
      && At(Deliver(r, d), base, next)
      && (next == best || next == Some(d.start))
      && (next.Some? ==> WinsOver(w, next.value))
      && ((d.start == w || best == Some(w)) && w.origin.slot >= base ==> next == Some(w))
      && (w.origin.slot < base ==> next.None?)
  {
    if best.None? { FirstDelivery(r, base, d); } else { LaterDelivery(r, base, best.value, d); }
  }

  predicate Competition(rules: seq<Rule>, best: Option<SyncedStart>, ds: seq<Delivery>, w: SyncedStart) {
    && w.origin.Scheduled? && (best.Some? ==> WinsOver(w, best.value))
    && (forall i | 0 <= i < |ds| :: Unexpired(rules, ds[i]) && WinsOver(w, ds[i].start))
    && (forall i | 0 <= i < |ds| :: best.Some? ==> Distinct(best.value, ds[i].start))
    && (forall i, j | 0 <= i < |ds| && 0 <= j < |ds| :: Distinct(ds[i].start, ds[j].start))
  }

  /** Folding the deliveries keeps the best break, so the overall winner stays once it has arrived. */
  lemma {:induction false} DeliveriesKeepBest(
    r: Runtime, base: nat, best: Option<SyncedStart>, ds: seq<Delivery>, w: SyncedStart)
    requires r.Valid() && At(r, base, best) && Competition(r.scheduler.Rules(), best, ds, w)
    requires w.origin.slot < base || best == Some(w) || exists i | 0 <= i < |ds| :: ds[i].start == w
    ensures At(DeliverAll(r, ds), base, if w.origin.slot < base then None else Some(w))
    decreases |ds|
  {
    if ds != [] {
      OneDelivery(r, base, best, ds[0], w);
      var next := Better(base, best, ds[0].start);
      if w.origin.slot >= base && ds[0].start != w && best != Some(w) {
        var i :| 0 <= i < |ds| && ds[i].start == w;
        assert ds[1..][i - 1].start == w;
      }
      DeliveriesKeepBest(Deliver(r, ds[0]), base, next, ds[1..], w);
    }
  }

  /**
   * Any number of peers: whatever the order and repetition in which a peer hears of a set of
   * unexpired scheduled starts with distinct slot and start time, it ends up showing the winner,
   * exactly when that is not behind its own slot.
   */
  lemma PeerShowsWinnerIff(r: Runtime, ds: seq<Delivery>, w: SyncedStart)
    requires r.Valid() && r.current.None? && r.scheduler.state.Ready?
    requires forall i | 0 <= i < |ds| :: Unexpired(r.scheduler.Rules(), ds[i])
    requires forall i, j | 0 <= i < |ds| && 0 <= j < |ds| :: Distinct(ds[i].start, ds[j].start)
    requires w.origin.Scheduled? && exists i | 0 <= i < |ds| :: ds[i].start == w
    requires forall i | 0 <= i < |ds| :: WinsOver(w, ds[i].start)
    ensures var after := DeliverAll(r, ds);
      if r.scheduler.slot <= w.origin.slot then after.current.Some? && Shows(after.current.value, w)
      else after.current.None?
  {
    DeliveriesKeepBest(r, r.scheduler.slot, None, ds, w);
  }

  /** The same for a peer that is already showing its own scheduled break, one of the competitors. */
  lemma StartingPeerShowsWinner(r: Runtime, own: SyncedStart, ds: seq<Delivery>, w: SyncedStart)
    requires r.Valid() && At(r, 0, Some(own))
    requires forall i | 0 <= i < |ds| :: Unexpired(r.scheduler.Rules(), ds[i]) && Distinct(own, ds[i].start)
    requires forall i, j | 0 <= i < |ds| && 0 <= j < |ds| :: Distinct(ds[i].start, ds[j].start)
    requires w == own || exists i | 0 <= i < |ds| :: ds[i].start == w
    requires WinsOver(w, own) && forall i | 0 <= i < |ds| :: WinsOver(w, ds[i].start)
    ensures var after := DeliverAll(r, ds);
      after.current.Some? && Shows(after.current.value, w)
  {
    DeliveriesKeepBest(r, 0, Some(own), ds, w);
  }

  /** The starts a peer knows of: the one it shows, if any, and those it hears of. */
  function Heard(best: Option<SyncedStart>, ds: seq<Delivery>): seq<SyncedStart> {
    (if best.Some? then [best.value] else []) + seq(|ds|, i requires 0 <= i < |ds| => ds[i].start)
  }

  predicate Competing(starts: seq<SyncedStart>) {
    && (forall i | 0 <= i < |starts| :: starts[i].origin.Scheduled?)
    && (forall i, j | 0 <= i < |starts| && 0 <= j < |starts| :: Distinct(starts[i], starts[j]))
  }

  /** Among any scheduled starts with distinct slot and start time there is a winner. */
  lemma {:induction false} WinnerExists(starts: seq<SyncedStart>) returns (w: SyncedStart)
    requires starts != [] && Competing(starts)
    ensures w in starts && w.origin.Scheduled? && forall i | 0 <= i < |starts| :: WinsOver(w, starts[i])
  {
    w := starts[0];
    if |starts| > 1 {
      var best := WinnerExists(starts[1..]);
      assert forall i | 0 < i < |starts| :: starts[i] == starts[1..][i - 1];
      assert Distinct(starts[0], best);
      if !Beats(starts[0], best) { w := best; }
    }
  }

  lemma HeardAt(best: Option<SyncedStart>, ds: seq<Delivery>, i: nat)
    requires i < |ds|
    ensures ds[i].start in Heard(best, ds)
  {
    assert Heard(best, ds)[i + if best.Some? then 1 else 0] == ds[i].start;
  }

  lemma HeardCompetition(rules: seq<Rule>, best: Option<SyncedStart>, ds: seq<Delivery>, w: SyncedStart)
    requires Competing(Heard(best, ds)) && forall i | 0 <= i < |ds| :: Unexpired(rules, ds[i])
    requires w in Heard(best, ds) && forall i | 0 <= i < |Heard(best, ds)| :: WinsOver(w, Heard(best, ds)[i])
    ensures Competition(rules, best, ds, w)
    ensures best == Some(w) || exists i | 0 <= i < |ds| :: ds[i].start == w
  {
    assert best.Some? ==> Heard(best, ds)[0] == best.value;
    forall i | 0 <= i < |ds|
      ensures WinsOver(w, ds[i].start) && (best.Some? ==> Distinct(best.value, ds[i].start))
    {
      HeardAt(best, ds, i);
    }
    forall i, j | 0 <= i < |ds| && 0 <= j < |ds| ensures Distinct(ds[i].start, ds[j].start) {
      HeardAt(best, ds, i);
      HeardAt(best, ds, j);
    }
  }

  /** What a peer shows in the end depends on nothing but the winner among the starts it knows of. */
  lemma ShowsWinnerOfHeard(r: Runtime, base: nat, best: Option<SyncedStart>, ds: seq<Delivery>, w: SyncedStart)
    requires r.Valid() && At(r, base, best) && Competing(Heard(best, ds))
    requires forall i | 0 <= i < |ds| :: Unexpired(r.scheduler.Rules(), ds[i])
    requires w in Heard(best, ds) && forall i | 0 <= i < |Heard(best, ds)| :: WinsOver(w, Heard(best, ds)[i])
    ensures At(DeliverAll(r, ds), base, if w.origin.slot < base then None else Some(w))
  {
    HeardCompetition(r.scheduler.Rules(), best, ds, w);
    DeliveriesKeepBest(r, base, best, ds, w);
  }

  predicate SameStarts(a: seq<SyncedStart>, b: seq<SyncedStart>) {
    (forall e | e in a :: e in b) && (forall e | e in b :: e in a)
  }

  lemma FirstIsHeard(b: seq<SyncedStart>)
    requires b != []
    ensures exists e :: e in b
  {
    assert b[0] in b;
  }

  lemma NothingHeard(b: seq<SyncedStart>)
    requires SameStarts([], b)
    ensures b == []
  {
    if b != [] {
      FirstIsHeard(b);
      assert false;
    }
  }

  /** Two orders, with any repetitions, in which a peer hears of the same starts end with the same break. */
  lemma OrderDoesNotMatter(r: Runtime, base: nat, best: Option<SyncedStart>, ds: seq<Delivery>, es: seq<Delivery>)
    requires r.Valid() && At(r, base, best)
    requires forall i | 0 <= i < |ds| :: Unexpired(r.scheduler.Rules(), ds[i])
    requires forall i | 0 <= i < |es| :: Unexpired(r.scheduler.Rules(), es[i])
    requires Competing(Heard(best, ds)) && SameStarts(Heard(best, ds), Heard(best, es))
    ensures var a, b := DeliverAll(r, ds).current, DeliverAll(r, es).current;
      a.Some? == b.Some? && (a.Some? ==> SameBreak(a.value, b.value))
  {
    if Heard(best, ds) == [] {
      NothingHeard(Heard(best, es));
      assert |Heard(best, ds)| >= |ds| && |Heard(best, es)| >= |es|;
      assert ds == [] && es == [];
    } else {
      var w := WinnerExists(Heard(best, ds));
      SameWinner(Heard(best, ds), Heard(best, es), w);
      ShowsWinnerOfHeard(r, base, best, ds, w);
      ShowsWinnerOfHeard(r, base, best, es, w);
    }
  }

  lemma SameWinner(a: seq<SyncedStart>, b: seq<SyncedStart>, w: SyncedStart)
    requires Competing(a) && SameStarts(a, b) && w in a && forall i | 0 <= i < |a| :: WinsOver(w, a[i])
    ensures Competing(b) && w in b && forall i | 0 <= i < |b| :: WinsOver(w, b[i])
  {
    forall i | 0 <= i < |b| ensures b[i] in a { assert b[i] in b; }
  }

  /**
   * The whole network: any two peers, each idle or showing one of the competing breaks, that come to
   * know of the same starts, none behind them, end up showing the same break.
   */
  lemma PeersAgree(
    a: Runtime, baseA: nat, bestA: Option<SyncedStart>, dsA: seq<Delivery>,
    b: Runtime, baseB: nat, bestB: Option<SyncedStart>, dsB: seq<Delivery>)
    requires a.Valid() && At(a, baseA, bestA) && b.Valid() && At(b, baseB, bestB)
    requires forall i | 0 <= i < |dsA| :: Unexpired(a.scheduler.Rules(), dsA[i])
    requires forall i | 0 <= i < |dsB| :: Unexpired(b.scheduler.Rules(), dsB[i])
    requires Competing(Heard(bestA, dsA)) && SameStarts(Heard(bestA, dsA), Heard(bestB, dsB))
    requires Heard(bestA, dsA) != []
    requires forall e | e in Heard(bestA, dsA) :: e.origin.Scheduled? && Max(baseA, baseB) <= e.origin.slot
    ensures var shownA, shownB := DeliverAll(a, dsA).current, DeliverAll(b, dsB).current;
      shownA.Some? && shownB.Some? && SameBreak(shownA.value, shownB.value)
  {
    var w := WinnerExists(Heard(bestA, dsA));
    SameWinner(Heard(bestA, dsA), Heard(bestB, dsB), w);
    ShowsWinnerOfHeard(a, baseA, bestA, dsA, w);
    ShowsWinnerOfHeard(b, baseB, bestB, dsB, w);
  }

  predicate Autolock(r: Runtime, start: SyncedStart) {
    FindRule(r.scheduler.Rules(), start.name).Some? && FindRule(r.scheduler.Rules(), start.name).value.autolock
  }

  /**
   * Both orders of two scheduled starts, for the same slot or not, show the winner, but they agree
   * on locking after it exactly when the loser does not lock or the winner does: a loser shown first
   * leaves its lock behind.
   */
  lemma LockConvergesIff(r: Runtime, l: Delivery, w: Delivery)
    requires r.Valid() && r.current.None? && r.scheduler.state.Ready?
    requires Unexpired(r.scheduler.Rules(), l) && Unexpired(r.scheduler.Rules(), w)
    requires r.scheduler.slot <= l.start.origin.slot && Beats(w.start, l.start)
    ensures var loserFirst := Deliver(Deliver(r, l), w).current;
      var winnerFirst := Deliver(Deliver(r, w), l).current;
      && loserFirst.Some? && winnerFirst.Some?
      && Shows(loserFirst.value, w.start) && Shows(winnerFirst.value, w.start)
      && (loserFirst.value.lockAfter == winnerFirst.value.lockAfter
          <==> (Autolock(r, l.start) ==> Autolock(r, w.start)))
  {
    ShownLock(r, l);
    ShownLock(r, w);
    ReplacedLockKept(Deliver(r, l), w);
    LosingStartLeavesBreak(Deliver(r, w), l);
  }

  lemma ShownLock(r: Runtime, d: Delivery)
    requires r.Valid() && r.current.None? && r.scheduler.state.Ready?
    requires Unexpired(r.scheduler.Rules(), d) && r.scheduler.slot <= d.start.origin.slot
    ensures At(Deliver(r, d), r.scheduler.slot, Some(d.start))
    ensures Deliver(r, d).current.value.lockAfter == Autolock(r, d.start)
  {
    var rule := FindRule(r.scheduler.Rules(), d.start.name).value;
    L.ReadySchedulerTakesBreak(r.scheduler, d.start.name, d.start.origin, d.env.pick, rule);
  }

  /** The break shown loses to a scheduled start: an earlier slot, or the same and a later start. */
  predicate Behind(c: CurrentBreak, e: SyncedStart)
    requires e.origin.Scheduled?
  {
    && c.origin.Scheduled?
    && (c.origin.slot < e.origin.slot || (c.origin.slot == e.origin.slot && e.startedAtMs < c.startedAtMs))
  }

  predicate Ahead(c: CurrentBreak, e: SyncedStart)
    requires e.origin.Scheduled?
  {
    && c.origin.Scheduled?
    && (e.origin.slot < c.origin.slot || (c.origin.slot == e.origin.slot && c.startedAtMs < e.startedAtMs))
  }

  lemma ReplacedLockKept(r: Runtime, d: Delivery)
    requires r.Valid() && r.current.Some?
    requires Unexpired(r.scheduler.Rules(), d) && r.scheduler.slot <= d.start.origin.slot
    requires Behind(r.current.value, d.start)
    ensures Deliver(r, d).current.Some? && Shows(Deliver(r, d).current.value, d.start)
    ensures Deliver(r, d).current.value.lockAfter == (r.current.value.lockAfter || Autolock(r, d.start))
  {
  }

  lemma LosingStartLeavesBreak(r: Runtime, d: Delivery)
    requires r.Valid() && r.current.Some? && Unexpired(r.scheduler.Rules(), d)
    requires Ahead(r.current.value, d.start)
    ensures Deliver(r, d).current == r.current
  {
  }
}
