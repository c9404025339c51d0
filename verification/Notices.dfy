/** How often the user is warned before a break, and when idling resets the schedule. */
module Notices {
  import opened Base
  import opened RuntimeModel
  import S = SchedulerModel

  /** Warnings still to come for a break, given the one on display. */
  function WarningsLeft(shown: Option<Notice>, name: string, slot: nat): nat {
    if shown.None? || shown.value.name != name || shown.value.slot != slot then 2
    else if shown.value.startsAfter > FINAL_NOTICE_LEAD then 1
    else 0
  }

  /**
   * A notice goes up only inside the lead time, states the predicted break and the time left, and
   * uses up one of the two warnings the break gets.
   */
  lemma NoticeUsesUpWarning(r: Runtime)
    requires r.Valid()
    ensures var after := NotifyUpcomingBreak(r);
      if after.ui == r.ui then after == r
      else
        && S.UpcomingBreak(r.scheduler).Some?
        && var up := S.UpcomingBreak(r.scheduler).value;
           && after.notice == Some(Notice(up.rule.name, up.slot, up.startsAfter))
           && after.ui == r.ui + [ShowPreBreakNotification(up.rule.name, up.startsAfter)]
           && up.startsAfter <= NoticeLead(r)
           && WarningsLeft(after.notice, up.rule.name, up.slot) < WarningsLeft(r.notice, up.rule.name, up.slot)
  {
  }

  /**
   * Exactly when one goes up: the break is at most thirty seconds and half a slot away and has not been
   * announced, or was announced earlier and is now at most five seconds away.
   */
  lemma NoticeGoesUpIff(r: Runtime)
    requires r.Valid() && S.UpcomingBreak(r.scheduler).Some?
    ensures var up := S.UpcomingBreak(r.scheduler).value;
      var left := WarningsLeft(r.notice, up.rule.name, up.slot);
      NotifyUpcomingBreak(r).ui != r.ui <==>
        && up.startsAfter <= 30_000_000_000 && 2 * up.startsAfter <= r.scheduler.schedule.afterActive
        && (left == 2 || (left == 1 && up.startsAfter <= 5_000_000_000))
  {
  }

  /** A break in the final seconds has always been announced once the runtime has looked. */
  lemma FinalWarningIsGiven(r: Runtime)
    requires r.Valid() && S.UpcomingBreak(r.scheduler).Some?
    requires S.UpcomingBreak(r.scheduler).value.startsAfter <= Min(FINAL_NOTICE_LEAD, NoticeLead(r))
    ensures var up := S.UpcomingBreak(r.scheduler).value;
      WarningsLeft(NotifyUpcomingBreak(r).notice, up.rule.name, up.slot) == 0
  {
  }

  /** Feeds idle stretches one after the other and counts how often the timeout fires. */
  function IdleFirings(i: IdleReset, stretches: seq<nat>): nat
    decreases |stretches|
  {
    if stretches == [] then 0
    else (if IdleFires(i, stretches[0]) then 1 else 0) + IdleFirings(IdleAdvance(i, stretches[0]), stretches[1..])
  }

  /** Between two moments of activity an idle timeout fires once, exactly when the idle time adds up to it. */
  lemma {:induction false} IdleFiresOnce(i: IdleReset, stretches: seq<nat>)
    requires i.timeout.Some? && !i.triggered && i.idleElapsed < i.timeout.value
    ensures IdleFirings(i, stretches) == if i.idleElapsed + Sum(stretches) >= i.timeout.value then 1 else 0
    decreases |stretches|
  {
    if stretches != [] {
      var next := IdleAdvance(i, stretches[0]);
      if next.triggered {
        TriggeredStaysQuiet(next, stretches[1..]);
      } else {
        IdleFiresOnce(next, stretches[1..]);
      }
    }
  }

  lemma {:induction false} TriggeredStaysQuiet(i: IdleReset, stretches: seq<nat>)
    requires i.triggered
    ensures IdleFirings(i, stretches) == 0
    decreases |stretches|
  {
    if stretches != [] {
      TriggeredStaysQuiet(i, stretches[1..]);
    }
  }
}
