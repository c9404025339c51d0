/** A break start brings a ready peer to exactly the sender's scheduler position. */
module Lockstep {
  import opened Base
  import opened Schedules
  import opened Protocol
  import opened RuntimeModel
  import opened BoundedGap
  import S = SchedulerModel

  /** How the sender's own scheduler started the break it announces. */
  datatype Cause = ByActiveTime(elapsed: nat) | ByHand(name: string)

  function StartedBy(s: S.Scheduler, cause: Cause, pick: nat): S.Outcome
    requires s.Valid()
  {
    match cause
    case ByActiveTime(elapsed) => S.AdvanceActive(s, elapsed, pick)
    case ByHand(name) => S.StartManualBreak(s, name, pick)
  }

  /** The message shown is one of the rule's, whichever the random choice falls on. */
  predicate MessageOf(rule: Rule, pick: nat, message: string) {
    if rule.messages == [] then message == "Take a break"
    else message in rule.messages && (pick < |rule.messages| ==> message == rule.messages[pick])
  }

  lemma ChosenMessage(rule: Rule, pick: nat)
    ensures MessageOf(rule, pick, MessageAt(rule, pick))
  {
  }

  /** A start at the slot reached, or by hand where the scheduler is; the time in progress is gone. */
  lemma StartedAt(s: S.Scheduler, cause: Cause, pick: nat)
    requires s.Valid() && StartedBy(s, cause, pick).started.Some?
    ensures var o := StartedBy(s, cause, pick);
      var b := o.started.value;
      && o.after.activeElapsed == 0 && o.after.state.Pending?
      && o.after.slot == (if cause.ByHand? then s.slot else S.NextSlot(s))
      && b.origin == (if cause.ByHand? then Manual else Scheduled(S.NextSlot(s)))
      && FindRule(s.Rules(), b.name).Some? && MessageOf(FindRule(s.Rules(), b.name).value, pick, b.message)
      && (cause.ByHand? ==> b.name == cause.name)
  {
    var rule := if cause.ByHand? then FindRule(s.Rules(), cause.name).value else S.NextRule(s);
    RuleFacts(s.Rules(), rule);
    ChosenMessage(rule, pick);
  }

  function Announcement(o: S.Outcome, startedAtMs: nat): SyncEvent
    requires o.started.Some?
  {
    BreakStarted(o.started.value.name, o.started.value.message, startedAtMs, o.started.value.origin,
                 S.PositionOf(o.after))
  }

  /** The runtime announces a break of its own exactly when it shows it, with the position after the start. */
  lemma RuntimeAnnouncesItsStart(r: Runtime, env: Env, cause: Cause)
    requires r.Valid() && env.backendUp
    requires cause.ByActiveTime? ==> cause.elapsed > 0
    requires StartedBy(r.scheduler, cause, env.pick).started.Some?
    ensures var o := StartedBy(r.scheduler, cause, env.pick);
      var step := if cause.ByActiveTime? then AdvanceActive(r, env, cause.elapsed, Forward)
                  else StartManualBreak(r, env, cause.name, Forward);
      if Remaining(env.laterNow, env.startNow, o.started.value.duration) > 0 then
        && step.after.sent == r.sent + [Broadcast(Announcement(o, env.startNow))]
        && step.after.scheduler == o.after
        && step.after.current == Some(ForBreak(o.started.value, env.startNow))
      else
        step.after.sent == r.sent && step.after.scheduler == S.FinishBreak(o.after)
  {
  }

  /** The peer's handling of an announcement, as far as its scheduler goes. */
  function Joined(b: S.Scheduler, e: SyncEvent, pick: nat): S.Scheduler
    requires e.BreakStarted?
  {
    Adopted(S.StartActiveSyncedBreak(b, e.name, e.origin, pick), e.position)
  }

  lemma ReadySchedulerTakesBreak(s: S.Scheduler, name: string, origin: Origin, pick: nat, rule: Rule)
    requires s.Valid() && s.state.Ready? && origin != Scheduled(0) && FindRule(s.Rules(), name) == Some(rule)
    requires origin.Scheduled? ==> s.slot <= origin.slot
    ensures var started := S.StartActiveSyncedBreak(s, name, origin, pick).started;
      && started.Some? && started.value.name == name && started.value.origin == origin
      && started.value.duration == rule.duration && started.value.autolock == rule.autolock
  {
  }

  lemma ReadyPeerShowsAnnouncement(r: Runtime, env: Env, peer: PeerId, e: SyncEvent, rule: Rule)
    requires r.Valid() && env.backendUp && r.current.None? && r.scheduler.state.Ready?
    requires e.BreakStarted? && e.origin != Scheduled(0) && FindRule(r.scheduler.Rules(), e.name) == Some(rule)
    requires e.origin.Scheduled? ==> r.scheduler.slot <= e.origin.slot
    requires Remaining(env.laterNow, e.startedAtMs, rule.duration) > 0
    ensures var after := HandleSyncEvent(r, env, peer, e).after;
      && after.scheduler == Joined(r.scheduler, e, env.pick)
      && after.current == Some(CurrentBreak(e.name, e.message, e.origin, rule.autolock, e.startedAtMs))
      && after.sent == r.sent
  {
    var start := SyncedStart(e.name, e.message, e.startedAtMs, e.origin, e.position, None);
    ReadySchedulerTakesBreak(r.scheduler, e.name, e.origin, env.pick, rule);
    assert HandleSyncEvent(r, env, peer, e) == ApplySyncedBreakStart(r, env, peer, start) == StartSyncedBreak(r, env, start);
    assert Joined(r.scheduler, e, env.pick)
        == S.MergeSyncedPosition(S.StartActiveSyncedBreak(r.scheduler, e.name, e.origin, env.pick).after, e.position);
  }

  /** Joining at an earlier slot and then merging is the same as being at the sender's slot. */
  lemma ManualMapsAgree(rules: seq<Rule>, last: map<string, nat>, early: nat, late: nat, interval: nat)
    requires WellOrdered(rules) && Covers(rules, last) && early <= late
    ensures S.MergedLast(rules, SatisfyManual(rules, last, early, interval),
                         SatisfyManual(rules, last, late, interval), late)
         == SatisfyManual(rules, last, late, interval)
  {
    var adopted, sent := SatisfyManual(rules, last, early, interval), SatisfyManual(rules, last, late, interval);
    forall r | r in rules ensures LastOf(S.MergedLast(rules, adopted, sent, late), r) == LastOf(sent, r) {
      SatisfyManualAt(rules, last, early, interval, r);
      SatisfyManualAt(rules, last, late, interval, r);
      MergedLastAt(rules, adopted, sent, late, r);
    }
    SameLast(rules, S.MergedLast(rules, adopted, sent, late), sent);
  }

  lemma ManualLockstep(a: S.Scheduler, b: S.Scheduler, name: string, at: nat, pick: nat, otherPick: nat)
    requires a.Valid() && b.Valid() && a.schedule == b.schedule && b.state.Ready?
    requires a.last == b.last && b.slot <= a.slot
    requires S.StartManualBreak(a, name, pick).started.Some?
    ensures var o := S.StartManualBreak(a, name, pick);
      S.PositionOf(Joined(b, Announcement(o, at), otherPick)) == S.PositionOf(o.after)
  {
    ManualMapsAgree(a.Rules(), a.last, b.slot, a.slot, FindRule(a.Rules(), name).value.interval);
  }

  /** A sender's satisfied slots merged into equal ones are the same again. */
  lemma MergedSame(rules: seq<Rule>, last: map<string, nat>, slot: nat)
    requires WellOrdered(rules) && Covers(rules, last)
    ensures S.MergedLast(rules, last, last, slot) == last
  {
    forall r | r in rules ensures LastOf(S.MergedLast(rules, last, last, slot), r) == LastOf(last, r) {
      MergedLastAt(rules, last, last, slot, r);
    }
    SameLast(rules, S.MergedLast(rules, last, last, slot), last);
  }

  lemma ScheduledLockstep(a: S.Scheduler, b: S.Scheduler, elapsed: nat, at: nat, pick: nat, otherPick: nat)
    requires a.Valid() && b.Valid() && a.schedule == b.schedule && b.state.Ready?
    requires S.AdvanceActive(a, elapsed, pick).started.Some?
    requires a.last == b.last && b.slot <= S.NextSlot(a)
    ensures var o := S.AdvanceActive(a, elapsed, pick);
      S.PositionOf(Joined(b, Announcement(o, at), otherPick)) == S.PositionOf(o.after)
  {
    var o := S.AdvanceActive(a, elapsed, pick);
    var next, chosen := S.NextSlot(a), S.NextRule(a);
    RuleFacts(a.Rules(), chosen);
    var adopted := S.StartActiveSyncedBreak(b, chosen.name, Scheduled(next), otherPick).after;
    assert adopted.last == o.after.last;
    MergedSame(a.Rules(), o.after.last, next);
  }

  /**
   * Equal maps and a receiver that is not ahead: after the announcement both peers have the same
   * slot, active time and satisfied slots, and show the same break.
   */
  lemma PeersInLockstep(
    a: Runtime, b: Runtime, envA: Env, envB: Env, peer: PeerId, cause: Cause)
    requires a.Valid() && b.Valid() && a.scheduler.schedule == b.scheduler.schedule
    requires envA.backendUp && envB.backendUp && b.current.None? && b.scheduler.state.Ready?
    requires StartedBy(a.scheduler, cause, envA.pick).started.Some?
    requires a.scheduler.last == b.scheduler.last
    requires b.scheduler.slot <= StartedBy(a.scheduler, cause, envA.pick).after.slot
    requires var o := StartedBy(a.scheduler, cause, envA.pick);
      Remaining(envB.laterNow, envA.startNow, o.started.value.duration) > 0
    ensures var o := StartedBy(a.scheduler, cause, envA.pick);
      var after := HandleSyncEvent(b, envB, peer, Announcement(o, envA.startNow)).after;
      && S.PositionOf(after.scheduler) == S.PositionOf(o.after)
      && after.current == Some(ForBreak(o.started.value, envA.startNow))
  {
    var o := StartedBy(a.scheduler, cause, envA.pick);
    var e := Announcement(o, envA.startNow);
    var rule := if cause.ByActiveTime? then S.NextRule(a.scheduler) else FindRule(a.scheduler.Rules(), cause.name).value;
    RuleFacts(a.scheduler.Rules(), rule);
    ReadyPeerShowsAnnouncement(b, envB, peer, e, rule);
    if cause.ByActiveTime? {
      ScheduledLockstep(a.scheduler, b.scheduler, cause.elapsed, envA.startNow, envA.pick, envB.pick);
    } else {
      ManualLockstep(a.scheduler, b.scheduler, cause.name, envA.startNow, envA.pick, envB.pick);
    }
  }

  /** Whatever the maps, joining leaves the receiver at or past both old positions. */
  lemma JoiningDominates(b: S.Scheduler, e: SyncEvent, pick: nat, r: Rule)
    requires b.Valid() && b.state.Ready? && r in b.Rules()
    requires e.BreakStarted? && S.StartActiveSyncedBreak(b, e.name, e.origin, pick).started.Some?
    requires LastOf(b.last, r) <= b.slot && LastOf(e.position.last, r) <= e.position.slot
    ensures var after := Joined(b, e, pick);
      && Max(b.slot, e.position.slot) <= after.slot
      && LastOf(b.last, r) <= LastOf(after.last, r)
      && LastOf(e.position.last, r) <= LastOf(after.last, r)
      && LastOf(after.last, r) <= after.slot
  {
    var adopted := S.StartActiveSyncedBreak(b, e.name, e.origin, pick).after;
    var rule := FindRule(b.Rules(), e.name).value;
    var after := Joined(b, e, pick);
    if e.origin.Manual? {
      SatisfyManualAt(b.Rules(), b.last, b.slot, rule.interval, r);
    } else {
      SatisfyScheduledAt(b.Rules(), b.last, e.origin.slot, rule, r);
    }
    MergedLastAt(b.Rules(), adopted.last, e.position.last, after.slot, r);
  }
}
