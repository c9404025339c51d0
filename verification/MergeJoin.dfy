/**
 * Merging positions is a join: it yields the least position above both, so the order and the
 * repetition of snapshots do not matter.
 */
module MergeJoin {
  import opened Base
  import opened Schedules
  import opened SchedulerModel
  import opened BoundedGap

  /** Satisfied slots never lie after the slot: what the wire validation demands of a position. */
  predicate WellFormed(rules: seq<Rule>, p: Position) {
    forall r | r in rules :: LastOf(p.last, r) <= p.slot
  }

  /** Later slot first, then more active time, and every rule satisfied at least as late. */
  predicate Below(rules: seq<Rule>, p: Position, q: Position) {
    && (p.slot < q.slot || (p.slot == q.slot && p.activeElapsed <= q.activeElapsed))
    && forall r | r in rules :: LastOf(p.last, r) <= LastOf(q.last, r)
  }

  lemma BelowIsTransitive(rules: seq<Rule>, a: Position, b: Position, c: Position)
    requires Below(rules, a, b) && Below(rules, b, c)
    ensures Below(rules, a, c)
  {
    forall r | r in rules ensures LastOf(a.last, r) <= LastOf(c.last, r) {
      assert LastOf(a.last, r) <= LastOf(b.last, r);
    }
  }

  /** Two schedulers over the same rules with mutually dominating positions are in the same position. */
  lemma BelowIsAntisymmetric(rules: seq<Rule>, a: Position, b: Position)
    requires Covers(rules, a.last) && Covers(rules, b.last)
    requires Below(rules, a, b) && Below(rules, b, a)
    ensures a == b
  {
    SameLast(rules, a.last, b.last);
  }

  function Merged(s: Scheduler, p: Position): Position { PositionOf(MergeSyncedPosition(s, p)) }

  /** The merge of well-formed positions is their least upper bound. */
  lemma MergeIsLeastUpperBound(s: Scheduler, p: Position)
    requires s.Valid() && WellFormed(s.Rules(), p)
    ensures Below(s.Rules(), PositionOf(s), Merged(s, p)) && Below(s.Rules(), p, Merged(s, p))
    ensures forall q: Position | Below(s.Rules(), PositionOf(s), q) && Below(s.Rules(), p, q) ::
      Below(s.Rules(), Merged(s, p), q)
  {
    var merged := MergeSyncedPosition(s, p);
    forall r | r in s.Rules()
      ensures LastOf(merged.last, r) == Max(LastOf(s.last, r), LastOf(p.last, r))
    {
      MergedLastAt(s.Rules(), s.last, p.last, merged.slot, r);
    }
  }

  /** Even a malformed position cannot move a satisfied slot past the slot. */
  lemma MergeIsWellFormed(s: Scheduler, p: Position)
    requires s.Valid() && WellFormed(s.Rules(), PositionOf(s))
    ensures WellFormed(s.Rules(), Merged(s, p))
  {
    var merged := MergeSyncedPosition(s, p);
    forall r | r in s.Rules() ensures LastOf(merged.last, r) <= merged.slot {
      MergedLastAt(s.Rules(), s.last, p.last, merged.slot, r);
      assert LastOf(PositionOf(s).last, r) <= s.slot;
    }
  }

  function MergeAll(s: Scheduler, ps: seq<Position>): Scheduler
    decreases |ps|
  {
    if ps == [] then s else MergeAll(MergeSyncedPosition(s, ps[0]), ps[1..])
  }

  lemma {:induction false} MergeAllIsLeastUpperBound(s: Scheduler, ps: seq<Position>, q: Position)
    requires s.Valid() && forall p | p in ps :: WellFormed(s.Rules(), p)
    ensures var m := MergeAll(s, ps);
      && m.Valid() && m.schedule == s.schedule && m.state == s.state
      && Below(s.Rules(), PositionOf(s), PositionOf(m))
      && (forall p | p in ps :: Below(s.Rules(), p, PositionOf(m)))
      && (Below(s.Rules(), PositionOf(s), q) && (forall p | p in ps :: Below(s.Rules(), p, q)) ==>
            Below(s.Rules(), PositionOf(m), q))
    decreases |ps|
  {
    if ps != [] {
      var next := MergeSyncedPosition(s, ps[0]);
      MergeIsLeastUpperBound(s, ps[0]);
      MergeAllIsLeastUpperBound(next, ps[1..], q);
      var m := PositionOf(MergeAll(s, ps));
      BelowIsTransitive(s.Rules(), PositionOf(s), PositionOf(next), m);
      BelowIsTransitive(s.Rules(), ps[0], PositionOf(next), m);
      forall p | p in ps ensures Below(s.Rules(), p, m) {
        if p != ps[0] { assert p in ps[1..]; }
      }
    }
  }

  /** Any order and any repetition of the same snapshots lead to the same scheduler. */
  lemma SnapshotsConverge(s: Scheduler, ps: seq<Position>, qs: seq<Position>)
    requires s.Valid() && forall p | p in ps :: WellFormed(s.Rules(), p)
    requires forall p :: p in ps <==> p in qs
    ensures MergeAll(s, ps) == MergeAll(s, qs)
  {
    var a, b := MergeAll(s, ps), MergeAll(s, qs);
    MergeAllIsLeastUpperBound(s, ps, PositionOf(b));
    MergeAllIsLeastUpperBound(s, qs, PositionOf(a));
    BelowIsAntisymmetric(s.Rules(), PositionOf(a), PositionOf(b));
  }

  lemma MergeTwo(s: Scheduler, p: Position, q: Position)
    ensures MergeAll(s, [p, q]) == MergeSyncedPosition(MergeSyncedPosition(s, p), q)
  {
    assert [p, q][1..] == [q] && [q][1..] == [];
    assert MergeAll(MergeSyncedPosition(s, p), [q]) == MergeSyncedPosition(MergeSyncedPosition(s, p), q);
  }

  lemma MergeCommutes(s: Scheduler, p: Position, q: Position)
    requires s.Valid() && WellFormed(s.Rules(), p) && WellFormed(s.Rules(), q)
    ensures MergeSyncedPosition(MergeSyncedPosition(s, p), q) == MergeSyncedPosition(MergeSyncedPosition(s, q), p)
  {
    MergeTwo(s, p, q);
    MergeTwo(s, q, p);
    SnapshotsConverge(s, [p, q], [q, p]);
  }

  /** Two machines that exchange their positions end in the same one. */
  lemma ExchangeConverges(s: Scheduler, t: Scheduler)
    requires s.Valid() && t.Valid() && s.schedule == t.schedule
    requires WellFormed(s.Rules(), PositionOf(s)) && WellFormed(t.Rules(), PositionOf(t))
    ensures Merged(s, PositionOf(t)) == Merged(t, PositionOf(s))
  {
    MergeIsLeastUpperBound(s, PositionOf(t));
    MergeIsLeastUpperBound(t, PositionOf(s));
    BelowIsAntisymmetric(s.Rules(), Merged(s, PositionOf(t)), Merged(t, PositionOf(s)));
  }

  /** A position is safe when it converges with every well-formed one, in either order. */
  ghost predicate OrderIndependent(schedule: Schedule, p: Position)
    requires ValidSchedule(schedule)
  {
    forall s: Scheduler, q: Position | s.Valid() && s.schedule == schedule && WellFormed(schedule.rules, q) ::
      MergeSyncedPosition(MergeSyncedPosition(s, p), q) == MergeSyncedPosition(MergeSyncedPosition(s, q), p)
  }

  /** The validation that receivers apply is exactly what makes merging order-independent. */
  lemma OrderIndependentIffWellFormed(schedule: Schedule, p: Position)
    requires ValidSchedule(schedule)
    ensures OrderIndependent(schedule, p) <==> WellFormed(schedule.rules, p)
  {
    if WellFormed(schedule.rules, p) {
      forall s: Scheduler, q: Position | s.Valid() && s.schedule == schedule && WellFormed(schedule.rules, q)
        ensures MergeSyncedPosition(MergeSyncedPosition(s, p), q) == MergeSyncedPosition(MergeSyncedPosition(s, q), p)
      {
        MergeCommutes(s, p, q);
      }
    } else {
      var r :| r in schedule.rules && LastOf(p.last, r) > p.slot;
      MalformedOrderMatters(schedule, p, r);
    }
  }

  /** A satisfied slot after the slot counts in full only when the later slot arrives first. */
  lemma MalformedOrderMatters(schedule: Schedule, p: Position, r: Rule)
    requires ValidSchedule(schedule) && r in schedule.rules && LastOf(p.last, r) > p.slot
    ensures !OrderIndependent(schedule, p)
  {
    var s := New(schedule);
    var q := Position(LastOf(p.last, r), 0, map[]);
    var pq := MergeSyncedPosition(MergeSyncedPosition(s, p), q);
    var qp := MergeSyncedPosition(MergeSyncedPosition(s, q), p);
    MergedLastAt(s.Rules(), s.last, p.last, MergeSyncedPosition(s, p).slot, r);
    MergedLastAt(s.Rules(), MergeSyncedPosition(s, p).last, q.last, pq.slot, r);
    MergedLastAt(s.Rules(), s.last, q.last, MergeSyncedPosition(s, q).slot, r);
    MergedLastAt(s.Rules(), MergeSyncedPosition(s, q).last, p.last, qp.slot, r);
    assert LastOf(pq.last, r) != LastOf(qp.last, r);
  }
}
