# RustEyes in Dafny

RustEyes runs one daemon per machine. Each daemon schedules eye breaks from active time, shares
the schedule with authenticated peers on the local network, and drives the overlay that shows a
break. This project models the parts of it that keep state and proves what they promise over whole
runs. `dafny verify dfyconfig.toml` checks everything.

Every object of the program that changes in place is a class here, and each of its methods is
proved equal to a function on values; the theorems are about those functions and about runs of them.
The names below are files.

| part | values and their operations | object | theorems |
|---|---|---|---|
| break settings | `Names`, `Config` | methods in `Config` | `Config` |
| scheduler | `Schedules`, `SchedulerModel` | `Scheduler` | `Prediction`, `Cadence`, `BoundedGap`, `SafeOps`, `MergeJoin` |
| messages between peers | `Protocol`, `Hex` | methods in both | `Protocol`, `SenderValidity`, `Outputs` |
| daemon | `RuntimeModel` | `Runtime` | `RuntimeRuns`, `NoSpeedUp`, `Lockstep`, `Convergence`, `Network`, `Disabling`, `Propagation`, `Snapshots`, `IdleResets`, `Notices`, `NoticeRuns`, `BreakTimes` |
| connections and sessions | `Connections`, `Session` | `ConnectionTracker`, `Session` | `TrackerInvariant`, `Collapse`, `BothEnds`, `Delivery` |
| transport worker | `WorkerModel` | `Worker` | `Announcements`, `EndToEnd`, `CommandsArrive`, `EndpointCare` |
| activity readings | `ActivityModel` | `ActivityPoller` | `ActivityAccounting` |
| macOS backend | `MacHelperModel` | `MacHelper` | `MacHelperRuns`, `ClosedLoop`, `OverlayContent`, `OverlayTimes`, `LockedFinish`, `FinishReports` |

`Limits` and `StaleFinish` give inputs at which a property fails; the exact conditions are proved with the properties.

Clocks, the network, the helper process, the random message choice and failing sends are inputs of a
step and may be anything. Durations are in nanoseconds and time stamps in milliseconds, as naturals.
`Base.Times`, `Quotient` and `Remainder` are multiplication and division by repeated steps
(`TimesIsProduct` and `QuotientAndRemainder` say so).

## What the proofs settle

- `build-notes/overlay-stuck-recovery.md` could not construct a run in which a break is shown while
  the scheduler is not pending. There is none: `RuntimeRuns.CurrentBreakIffPending`. Nor can the
  overlay of an answering macOS helper outlive its break or show another one:
  `ClosedLoop.OverlayMatchesBreak`, `OverlayContent.OverlayIsOfCurrentBreak`.
- `project.md` says that simultaneous activity on several peers can make breaks arrive faster. Once a
  daemon has seen a wall-clock tick the code does not let it by active time alone:
  `NoSpeedUp.SlotsWithinWallClock`. The model follows the code.
- The prediction shown to the user is exact unless the slot in progress is overfull and the next slot
  is free; then the break comes early (`Prediction.PredictionExactIff`). Only a peer's position can
  bring that about, since merging does not check the active time against the slot length
  (`Prediction.RunStaysPredictable`, `Limits.SnapshotOverfillsSlot`).
- Merging positions is a join exactly for the positions that the receiver's validation lets through
  (`MergeJoin.OrderIndependentIffWellFormed`).
- A machine that is reset while it shows a break sends snapshots that leave a machine just started
  overdue for longer breaks (`SafeOps.SafeOpIffSound`, `Limits.ResetLeavesNewcomerOverdue`).
- Two peers settle on one break unless the winner's slot has already passed at the loser
  (`Convergence.TwoPeersConvergeIff`, `Limits.WinnerIsRefused`). Scheduled breaks settle among any
  number of peers (`Convergence.PeersAgree`); ties at a third peer, mixtures with manual breaks and
  the lock decision do so only under the conditions in `TieIsOrderDependentIff`, `CircleIffWedged`
  and `LockConvergesIff`.
- A valid event with a duration below a millisecond is refused by the peer that decodes it, and no
  other one is (`Protocol.ValidAfterWireIff`).
- The worker's announcements are in step with its connections exactly as long as no hello changes the
  peer of an endpoint (`Announcements.InStepIff`); connections stay sound even then.
- A disabled machine still shows a break that a peer announces (`Disabling.PeersBreakShowsWhileOff`).
- A lock requested while a finished break waits for the session to be unlocked is not carried out,
  unless a finish that locks is already on its way or the daemon has yet to hear a finish of an earlier
  break (`LockedFinish.CanLockIff`; `StaleFinish.WaitingBreakCanLock` gives the run).
- A report that a break is over does not say which, so one heard late ends the break begun since, started
  anew (`StaleFinish.NewBreakIsCutShort`) or put in place of the reported one
  (`StaleFinish.ReplacementIsCutShort`). Exactly when a report is about the break it ends:
  `FinishReports.ReportIsForShownIff`.

## Model

| member | source | states |
|---|---|---|
| `Names.ValidNameMeans` | src/config.rs:821-829 | The trim test accepts exactly the non-empty names that neither start nor end with white space |
| `Config.ValidateType` | src/config.rs:371-401 | Accepts exactly a positive interval and duration and non-blank messages; an error names the fault and the break type |
| `Config.Validate` | src/config.rs:285-330 | Accepts exactly the well-formed settings, distinct intervals included; an error names a fault that is there |
| `Config.TryFrom` | src/scheduler.rs:42-69 | A schedule is built exactly from well-formed settings, has all their rules, and is valid: longest interval first, names distinct |
| `Schedules.DueRuleIsLongest` | src/scheduler.rs:456-466 | The rule chosen at a slot has the largest interval of all that are due there |
| `Schedules.DueFromNextDue` | src/scheduler.rs:438-466 | A later slot has a due rule exactly from the computed next due slot on |
| `Schedules.NextDueStable` | src/scheduler.rs:438-454 | The next due slot does not move while free slots before it pass |
| `Schedules.SatisfyScheduledAt` | src/scheduler.rs:475-491 | A scheduled break satisfies exactly the due rules that are not longer than it, at its slot |
| `Schedules.SatisfyManualAt` | src/scheduler.rs:493-505 | A manual break satisfies its own and every more frequent rule at the current slot, and no longer one |
| `SchedulerModel.AdvanceStarts` | src/scheduler.rs:213-235 | Enough active time starts the next due rule at its slot, however much time is left over |
| `SchedulerModel.AdvancePasses` | src/scheduler.rs:213-235 | Less time fills whole slots and keeps the remainder, starting nothing |
| `SchedulerModel.StartDueWhenReached` | src/scheduler.rs:213-235 | Walking slot by slot finds nothing due before the next due slot, and there ends where the closed form does |
| `SchedulerObject.BreakScheduler.constructor` | src/scheduler.rs:135-145 | A fresh scheduler is at slot zero with nothing satisfied |
| `SchedulerObject.BreakScheduler.UpcomingScheduledBreak` | src/scheduler.rs:159-181 | The accumulated wait is the closed form of the prediction |
| `SchedulerObject.BreakScheduler.AdvanceActive` | src/scheduler.rs:213-235 | The slot-by-slot loop ends and computes the closed form: state and started break |
| `SchedulerObject.BreakScheduler.StartDue` | src/scheduler.rs:220-231 | Starts the rule due at the slot just reached, satisfies what it supersedes and makes it pending |
| `SchedulerObject.BreakScheduler.ResetActiveTime` | src/scheduler.rs:237-239 | Forgets the time in progress and nothing else |
| `SchedulerObject.BreakScheduler.ResetPosition` | src/scheduler.rs:241-253 | Back to the first slot; true exactly when anything changed |
| `SchedulerObject.BreakScheduler.StartManualBreak` | src/scheduler.rs:255-271 | Refused while pending or unavailable, otherwise pending with its satisfied slots |
| `SchedulerObject.BreakScheduler.StartActiveSyncedBreak` | src/scheduler.rs:288-296 | Joins a running break with its origin, refused for slot zero, a passed slot or a pending break |
| `SchedulerObject.BreakScheduler.ReplacementSyncedBreak` | src/scheduler.rs:298-306 | Takes over origin and satisfied slots of a replacing break and leaves the state pending |
| `SchedulerObject.BreakScheduler.AdoptSyncedOrigin` | src/scheduler.rs:407-424 | Adopts an origin or changes nothing, when the slot has passed or the rule is unknown |
| `SchedulerObject.BreakScheduler.MergeSyncedPosition` | src/scheduler.rs:308-342 | The loop over incoming slots computes the merge; true exactly when the state changed |
| `SchedulerObject.BreakScheduler.FinishBreak` | src/scheduler.rs:344-362 | Returns to the resume mode; true exactly when a break was pending |
| `SchedulerObject.BreakScheduler.Disable` | src/scheduler.rs:364-375 | Ready and disabled; true exactly when a break was pending |
| `SchedulerObject.BreakScheduler.Enable` | src/scheduler.rs:377-382 | Active now, or after the pending break |
| `SchedulerObject.BreakScheduler.SatisfyScheduledBreaks` | src/scheduler.rs:475-491 | The update in place is the specified map of satisfied slots |
| `SchedulerObject.BreakScheduler.SatisfyManualBreaks` | src/scheduler.rs:493-505 | The update in place is the specified map of satisfied slots |
| `Prediction.PredictionExact` | src/scheduler.rs:159-181 | Less time than predicted starts nothing and shortens the wait by exactly that much; otherwise exactly the predicted rule starts at the predicted slot |
| `Prediction.PredictionExactIff` | src/scheduler.rs:159-235 | The prediction is right for every amount of time if and only if the slot in progress is not overfull or the very next slot is due |
| `Prediction.RunStaysPredictable` | src/scheduler.rs:213-424 | Over any run of all operations predictions stay exact as long as incoming active times are less than a slot |
| `Limits.SnapshotOverfillsSlot` | src/scheduler.rs:308-342 | A snapshot that validation accepts brings a daemon into such an overfull slot |
| `Prediction.OverfullSlotStartsEarly` | src/scheduler.rs:308-342 | In every other state some amount of time starts the break before it was predicted (merging can bring in such an active time) |
| `Prediction.AdvanceSplit` | src/scheduler.rs:213-235 | Feeding time twice is feeding the sum, up to the first break |
| `Prediction.PollingGranularity` | src/scheduler.rs:213-235 | Any division of active time into portions ends in the same state with the same break |
| `Prediction.WholeSlotAfterBreak` | src/scheduler.rs:344-362 | After a break the next scheduled one comes exactly when the slots up to the next due one are filled, at least one whole slot later |
| `Prediction.WholeSlotAfterDisable` | src/scheduler.rs:364-382 | The same when breaks are enabled again after having been disabled |
| `Cadence.StartsAtMultiples` | src/scheduler.rs:213-235 | A break starts at a visited slot exactly when some interval divides it, and it is the largest such interval |
| `Cadence.AdvanceKeepsCadence` | src/scheduler.rs:456-491 | After any advance each last-satisfied slot is the largest multiple of its interval not above the slot |
| `Cadence.SoloRunKeepsCadence` | src/scheduler.rs:213-253 | The same after any run of advances, finishes, disables, enables and resets |
| `Cadence.CadenceRefinesModulo` | src/scheduler.rs:213-253 | From start-up, after any such run, the plain divides-the-slot rule decides every further break |
| `BoundedGap.StepIsNotOverdue` | src/scheduler.rs:213-424 | Every operation keeps each rule less than one interval behind, given incoming positions as `SafeOps.SafeOpIffSound` shows necessary |
| `BoundedGap.RunIsNotOverdue` | src/scheduler.rs:213-424 | Over any run of such operations slot minus last-satisfied stays in [0, interval) for every rule |
| `BoundedGap.MergeIsNotOverdue` | src/scheduler.rs:308-342 | Merging a position that is itself within every interval even repairs an overdue state that is not past it |
| `BoundedGap.AdoptionIsNotOverdue` | src/scheduler.rs:384-424 | Adopting a break and then its position leaves no rule overdue if at the later of their slots the position has every rule within its interval that the break does not satisfy |
| `SafeOps.SafeOpIffSound` | src/scheduler.rs:213-424 | Exactly those operations leave every machine of the schedule that is not overdue so, for each operation and any position at all: a merge needs a position within every interval, a join or replacement of a break one that covers the rules longer than the break, no other needs anything |
| `SafeOps.UnsoundJoinFallsBehind` | src/scheduler.rs:384-424 | For every other break and position there is a machine, not overdue itself, that joins and is overdue |
| `BoundedGap.OwnStartIsSound` | src/runtime.rs:639-657 | What a machine that is not overdue announces with a break of its own is safe to join |
| `BoundedGap.SnapshotIsSound` | src/runtime.rs:483-499 | So is a snapshot whose position is not before the break it shows |
| `Limits.ResetPeerSends` | src/runtime.rs:483-559 | A reset during a break followed by a snapshot is valid and has a position before the break |
| `Limits.ResetLeavesNewcomerOverdue` | src/runtime.rs:771-809 | And it leaves a machine that has just started overdue for the long break |
| `BoundedGap.FreshIsNotOverdue` | src/scheduler.rs:34-40 | A fresh scheduler has no rule overdue |
| `BoundedGap.ManualStartMatchesAvailability` | src/scheduler.rs:183-211 | In a ready state a manual start is accepted exactly when the availability map offers it |
| `BoundedGap.ManualStartKeepsLongerRules` | src/scheduler.rs:493-505 | A manual start moves the due slot of its own and more frequent rules to a whole interval from now, and of no longer rule |
| `BoundedGap.ManualBreakIsNotAnEscape` | src/scheduler.rs:199-211 | An accepted manual break is never more frequent than the break that was next |
| `MergeJoin.MergeIsLeastUpperBound` | src/scheduler.rs:308-342 | Merging a well-formed position gives the least position above both |
| `MergeJoin.MergeIsWellFormed` | src/scheduler.rs:328-336 | Even a malformed position cannot move a satisfied slot past the slot |
| `MergeJoin.MergeAllIsLeastUpperBound` | src/scheduler.rs:308-342 | Merging a list gives the least position above all of it |
| `MergeJoin.SnapshotsConverge` | src/scheduler.rs:308-342 | Any order and any repetition of the same snapshots lead to the same scheduler |
| `MergeJoin.MergeCommutes` | src/scheduler.rs:308-342 | Two well-formed positions may be merged in either order |
| `MergeJoin.ExchangeConverges` | src/scheduler.rs:308-342 | Two machines that exchange positions end in the same one |
| `MergeJoin.OrderIndependentIffWellFormed` | src/sync_protocol.rs:343-362 | The receiver-side check of satisfied slots is exactly what makes merging independent of order |
| `MergeJoin.MalformedOrderMatters` | src/scheduler.rs:328-336 | A satisfied slot after its slot makes the result depend on the order of arrival |
| `Protocol.ValidateLastSatisfiedSlots` | src/sync_protocol.rs:343-362 | Accepts exactly valid names with slots not after the slot; an error quotes the offending entry |
| `Protocol.Validate` | src/sync_protocol.rs:283-325 | Accepts exactly the valid events; an error names a fault the event has |
| `Protocol.ValidateMessage` | src/sync_protocol.rs:210-232 | Accepts exactly the current version with sequence zero for hellos and only for them |
| `Protocol.WireRoundTrip` | src/sync_protocol.rs:637-656 | The wire is lossless exactly for whole milliseconds, and sending again loses nothing more |
| `Protocol.ValidAfterWireIff` | src/sync_protocol.rs:637-656 | A valid event is valid after the wire if and only if its duration is not below a millisecond |
| `Hex.EncodeHex` | src/sync_protocol.rs:473-482 | Two lower-case digits a byte, high nibble first |
| `Hex.DecodeHexExact` | src/sync_protocol.rs:484-516 | Accepts exactly hex of the right length in either case, and each pair of digits is its byte |
| `Hex.RoundTrip` | src/sync_protocol.rs:473-507 | Decoding what was encoded gives the bytes back |
| `Hex.ConstantTimeEq` | src/sync_protocol.rs:463-471 | The accumulated difference decides equality |
| `RuntimeObject.DaemonRuntime.constructor` | src/runtime.rs:213-245 | Starts enabled with nothing shown and nothing sent |
| `RuntimeObject.DaemonRuntime.HandleInput` | src/runtime.rs:304-309 | One input changes the state and writes the outputs the model says |
| `RuntimeObject.DaemonRuntime.HandleEvent` | src/runtime.rs:311-344 | The same, for what the backend and the user interface report |
| `RuntimeObject.DaemonRuntime.HandleTransport` | src/runtime.rs:346-362 | The same, for what the transport reports: a new peer is sent the scheduler state |
| `RuntimeObject.DaemonRuntime.HandleSyncEvent` | src/runtime.rs:364-440 | The same, for a peer's event |
| `RuntimeObject.DaemonRuntime.ObserveActive` | src/runtime.rs:501-519 | Idle timers restart, local time is broadcast, and only credited time advances the scheduler |
| `RuntimeObject.DaemonRuntime.AdvanceActive` | src/runtime.rs:521-534 | A started break is shown, otherwise the user may be warned |
| `RuntimeObject.DaemonRuntime.AdvanceIdle` | src/runtime.rs:536-547 | The count timer resets the position, the other one only the time in progress |
| `RuntimeObject.DaemonRuntime.ApplySchedulerReset` | src/runtime.rs:549-559 | Both timers count as triggered; a reset is broadcast only if it changed something |
| `RuntimeObject.DaemonRuntime.StartBreakAt` | src/runtime.rs:624-662 | Shown with what is left of it and announced after the backend took it; finished at once when nothing is left |
| `RuntimeObject.DaemonRuntime.StartManualBreak` | src/runtime.rs:566-589 | A manual start through the scheduler |
| `RuntimeObject.DaemonRuntime.StartSyncedBreak` | src/runtime.rs:591-613 | Joins a peer's break with its message, start and lock, then merges its position |
| `RuntimeObject.DaemonRuntime.ApplySyncedBreakStart` | src/runtime.rs:676-723 | Joins, replaces or only merges, as the conflict rule says; unknown names and slot zero change nothing |
| `RuntimeObject.DaemonRuntime.ReplaceCurrentBreak` | src/runtime.rs:747-769 | The overlay is updated, or cleared when the winner is already over |
| `RuntimeObject.DaemonRuntime.ApplySyncedSchedulerState` | src/runtime.rs:771-809 | The active break is applied before the position is merged |
| `RuntimeObject.DaemonRuntime.FailStart` | src/runtime.rs:811-820 | A failed start forgets the break and finishes it in the scheduler |
| `RuntimeObject.DaemonRuntime.FinishBreak` | src/runtime.rs:822-844 | Sends a finish only when a break is shown, with its lock decision |
| `RuntimeObject.DaemonRuntime.RequestLock` | src/runtime.rs:846-861 | Sent and broadcast once for a break |
| `RuntimeObject.DaemonRuntime.AdvanceWallClock` | src/runtime.rs:863-874 | A tick sets the budget and ends a timed disable that is over |
| `RuntimeObject.DaemonRuntime.DisableForDuration` | src/runtime.rs:876-889 | Timed mode, scheduler off, overlay cleared, broadcast only if the backend took the command |
| `RuntimeObject.DaemonRuntime.DisableUntilRestart` | src/runtime.rs:891-898 | The same without an end |
| `RuntimeObject.DaemonRuntime.EnableBreaks` | src/runtime.rs:900-905 | Scheduler on and mode enabled |
| `RuntimeObject.DaemonRuntime.DisableScheduler` | src/runtime.rs:907-918 | Clears the overlay exactly when a break was pending |
| `RuntimeObject.DaemonRuntime.NotifyUpcomingBreak` | src/runtime.rs:930-985 | Warns at most as the lead times allow |
| `RuntimeObject.DaemonRuntime.ClearNotice` | src/runtime.rs:994-1002 | Withdraws a notice once |
| `RuntimeObject.DaemonRuntime.NotifyPeerRejected` | src/runtime.rs:1051-1071 | Tells the user once for each peer |
| `RuntimeRuns.RunKeepsJoint` | src/runtime.rs:311-440 | After any run of local and remote inputs: a break is shown iff one is pending, enabled iff the scheduler mode is active, a notice only while breaks are coming |
| `RuntimeRuns.CurrentBreakIffPending` | src/runtime.rs:822-844 | The same from start-up: settles that a shown break and a pending scheduler always coincide |
| `RuntimeRuns.InputConforms` | src/runtime.rs:304-440 | Each input sends at most one command, and only one the state of the overlay allows |
| `RuntimeRuns.RunIsGrammatical` | src/runtime.rs:624-861 | Over any run a break is opened only when none is open, and touched or closed only when one is |
| `RuntimeRuns.EachBreakClosedAtMostOnce` | src/runtime.rs:822-844 | From start-up no more breaks are finished or cleared than were started, even with duplicated finish events |
| `SenderValidity.RunSendable` | src/runtime.rs:483-499 | After any run the scheduler state can be described to a peer by a valid event |
| `SenderValidity.EverySentEventIsValid` | src/sync_protocol.rs:283-390 | Every event a daemon sends in any run passes validation, and passes it again after the wire iff its duration is not below a millisecond |
| `NoSpeedUp.CreditWithinWallClock` | src/runtime.rs:1110-1131 | Local and remote credit together never exceed the wall clock once it has ticked |
| `NoSpeedUp.AdvanceCost` | src/scheduler.rs:213-235 | Every slot gained costs its full active time; a break start only throws time away |
| `NoSpeedUp.SlotsWithinCredit` | src/runtime.rs:501-534 | Over any run, across resets and peers' positions, every slot gained by active time was paid for with credited time or time in progress that a position brought along |
| `NoSpeedUp.SlotsWithinWallClock` | src/runtime.rs:1110-1131 | So slots gained by active time times the slot length are bounded by the time in progress, the budget, the wall clock and what positions brought |
| `NoSpeedUp.WithoutPositions` | src/runtime.rs:501-534 | Without peers' positions those are all the slots there are, and nothing is brought along |
| `Lockstep.RuntimeAnnouncesItsStart` | src/runtime.rs:624-662 | A daemon announces its own start exactly when it shows it, with the position after the start |
| `Lockstep.StartedAt` | src/scheduler.rs:183-260 | A start is at the next due slot, or by hand at the slot the scheduler is at, with no time in progress left and a message of its rule, the one the random choice falls on |
| `Lockstep.ScheduledLockstep` | src/scheduler.rs:407-424 | Equal maps and a receiver not ahead: adopting a scheduled start and merging gives exactly the sender's position |
| `Lockstep.ManualLockstep` | src/scheduler.rs:407-424 | The same for a manual start |
| `Lockstep.PeersInLockstep` | src/runtime.rs:591-613 | Through the handlers: afterwards slot, active time and every satisfied slot agree, and both show the same break |
| `Lockstep.JoiningDominates` | src/scheduler.rs:308-342 | With differing maps the receiver still ends at or past both old positions, rule by rule |
| `Convergence.ExactlyOneYields` | src/runtime.rs:725-745 | Of two peers showing any two breaks exactly one yields to the other |
| `Convergence.TieIsOrderDependentIff` | src/runtime.rs:725-745 | At a third peer two breaks displace each other if and only if they tie and both senders have lower ids |
| `Convergence.CircleIffWedged` | src/runtime.rs:725-745 | Three breaks with distinct starts displace each other in a circle if and only if a manual one began between two scheduled ones of which the later has the later slot |
| `Convergence.MixedOriginsAreCyclic` | src/runtime.rs:725-745 | Three such breaks |
| `Convergence.UnexpiredStartTakesOverIff` | src/runtime.rs:676-723 | An unexpired start takes over exactly when the conflict rule says so and its slot has not passed |
| `Convergence.TwoPeersConvergeIff` | src/runtime.rs:676-769 | After exchanging announcements two peers show the same break if and only if they did before or neither refuses the winner for a passed slot |
| `Convergence.DeliveriesKeepBest` | src/runtime.rs:676-769 | Folding deliveries keeps the best scheduled break heard of that is not behind the peer |
| `Convergence.PeerShowsWinnerIff` | src/runtime.rs:676-769 | For any number of peers, orders and repetitions of unexpired scheduled starts with distinct slot and start, a ready peer ends up showing the winner, which always exists, if its slot has not passed, and nothing otherwise |
| `Convergence.StartingPeerShowsWinner` | src/runtime.rs:676-769 | The same for a peer that shows its own competitor, for the winner that always exists |
| `Convergence.WinnerExists` | src/runtime.rs:725-745 | Among any scheduled starts with distinct slot and start there is one that wins over all others |
| `Convergence.OrderDoesNotMatter` | src/runtime.rs:676-769 | Any two orders and repetitions in which a peer hears of the same starts end with the same break shown, or none |
| `Convergence.PeersAgree` | src/runtime.rs:676-769 | Any two peers, idle or showing a competitor, that come to know of the same starts, none behind them, show the same break |
| `Limits.WinnerIsRefused` | src/runtime.rs:676-723 | Two peers, reached by accepted inputs, of which one refuses the winner for a passed slot, so that they end apart |
| `Convergence.LockConvergesIff` | src/runtime.rs:676-723 | Two orders of two starts, for the same slot or not, agree on locking after the break if and only if the loser does not lock or the winner does |
| `Limits.LocksDiffer` | src/runtime.rs:676-723 | Two starts whose order decides the lock |
| `Network.RemoteEventIsQuiet` | src/runtime.rs:364-440 | Handling a remote event sends nothing, except one break start caused by remote active time |
| `Network.StepLightens` | src/runtime.rs:442-534 | In a network of any size each delivery or loss lowers the weight of the messages in flight |
| `Network.NetworkGoesQuiet` | src/runtime.rs:442-534 | Without local input at most as many deliveries happen as the messages in flight weigh |
| `Disabling.DisableEndsIff` | src/runtime.rs:863-905 | Whatever is shown meanwhile, a disable ends if and only if breaks are enabled here or by a peer, or a tick finds its time over |
| `Disabling.OffStep` | src/runtime.rs:907-918 | While breaks are off no input but a break brought from elsewhere sends the overlay anything |
| `Disabling.DisabledRunShowsNothing` | src/runtime.rs:876-918 | Over any run without one of those the overlay is told nothing, however much active time is reported |
| `Disabling.PeersBreakShowsWhileOff` | src/runtime.rs:591-613 | A break of a peer is shown all the same, and finishing it leaves breaks disabled |
| `Notices.NoticeUsesUpWarning` | src/runtime.rs:930-985 | A notice is only for the predicted break inside the lead time and uses up one of its two warnings |
| `Notices.FinalWarningIsGiven` | src/runtime.rs:965-992 | In the final seconds no warning is left to give once the runtime has looked |
| `NoticeRuns.PredictionMovesForward` | src/scheduler.rs:438-466 | While slot and satisfied slots do not go back, neither does the predicted break: later slots, or shorter intervals at the same one |
| `NoticeRuns.TurnEffect` | src/runtime.rs:930-1002 | Each input withdraws the notice, leaves it while the position only grows, or renews it for the predicted break |
| `NoticeRuns.ActiveTimeWarns` | src/runtime.rs:521-534 | Active time that counts, here or at a peer, and starts no break leaves no warning due |
| `NoticeRuns.EndingWithdraws` | src/runtime.rs:811-844 | A finished or failed break, a stop, a disable and a reset withdraw the notice |
| `NoticeRuns.WarnedAtMostTwice` | src/runtime.rs:930-1002 | From start-up, in any stretch of any run, on any inputs, without a withdrawal no break is announced more than twice |
| `Notices.NoticeGoesUpIff` | src/runtime.rs:930-992 | Exactly when a notice goes up: the break is at most thirty seconds and half a slot away and not announced yet, or announced early and now at most five seconds away |
| `Notices.IdleFiresOnce` | src/runtime.rs:1133-1175 | Between two moments of activity an idle timer fires once, exactly when the idle time adds up to it |
| `IdleResets.IdlingResets` | src/runtime.rs:536-559 | Over any idle stretches since somebody was active: slot and satisfied slots stay below the longer timeout and are zero from then on, the time in progress stays below both and is zero from the first on, a notice goes with it |
| `IdleResets.ResetIsSentOnce` | src/runtime.rs:549-559 | Peers are told exactly at the stretch that reaches the longer timeout, if the position moved |
| `IdleResets.IdlingSinceActivity` | src/runtime.rs:213-245 | From start-up, with the timeouts of the configuration, whatever happened before the last activity here or at a peer |
| `Outputs.LocalSendsExactly` | src/runtime.rs:311-344 | Everything each local event makes the daemon send: the active time reported, a start of its own exactly when it shows one and with the position after it, each disable, enable and lock request, and a reset when the position moved |
| `Outputs.SyncSendsExactly` | src/runtime.rs:346-440 | And each event from a peer: its own state, directed, to one that has just arrived, a start that the peer's active time set off, and nothing else |
| `Outputs.RemoteActivityCounts` | src/runtime.rs:501-519 | Active time of a peer changes the state exactly as the same time here |
| `Outputs.RejectedPeerIsShownOnce` | src/runtime.rs:1051-1071 | Over every run a peer is reported once if it is ever turned away and else not |
| `Propagation.TimedDisableSpreads` | src/runtime.rs:876-889 | A timed disable and the event it sends switch breaks off here and at the peer, which show nothing, both for the whole milliseconds of the duration from their own clock on |
| `Propagation.DisableSpreads` | src/runtime.rs:891-898 | So does a disable until restart |
| `Propagation.EnableSpreads` | src/runtime.rs:900-905 | Enabling and the event it sends let the schedule run on at both, and leave position and break shown |
| `Propagation.LockSpreads` | src/runtime.rs:846-861 | A lock asked for here is kept for the break shown here and for whatever break the peer shows |
| `Propagation.ResetSpreads` | src/runtime.rs:536-559 | A reset after idling and the event it sends put both at zero, and leave break and mode |
| `Propagation.TimedDisableLasts` | src/runtime.rs:863-889 | Over any run without another request a timed disable is over exactly if some tick came when its whole milliseconds had passed |
| `Snapshots.NewcomerCatchesUp` | src/runtime.rs:479-499 | A newcomer that hears what a machine showing nothing sends it has the same slot and satisfied slots, and its active time to the millisecond |
| `Snapshots.NewcomerJoins` | src/runtime.rs:771-809 | One that hears it from a machine showing a break not yet over shows that break with its name, message, origin, start and lock, at the later of both slots, each rule satisfied where the machine or the break says |
| `Snapshots.SnapshotIsJoined` | src/runtime.rs:771-809 | So does any ready machine whose slot is not past the break |
| `Snapshots.SnapshotReplaces` | src/runtime.rs:676-723 | And one that shows a break which loses against it |
| `Snapshots.SnapshotMerges` | src/runtime.rs:771-809 | A snapshot without a break moves each part of the position up to it and changes nothing else |
| `Snapshots.SnapshotAlwaysCounts` | src/runtime.rs:771-809 | Whatever break comes with a snapshot, and even if that is refused, slot and satisfied slots reach its position |
| `Snapshots.WinningStartTakesOver` | src/runtime.rs:676-723 | A start that is joined or replaces the break shown leaves slot, time in progress and each satisfied slot at exactly what break and position make them |
| `Snapshots.UnknownStartIsIgnored` | src/runtime.rs:676-690 | A start of a break not configured here, or of slot zero, changes nothing |
| `Snapshots.LosingStartMerges` | src/runtime.rs:676-723 | As does a start that loses against the break shown |
| `Snapshots.RunCanGreet` | src/runtime.rs:483-499 | What these ask of the sender holds after every run |
| `Connections.SetDirectionAt` | src/sync_transport/connections.rs:31-36 | Changing the found entry in place is the specified list |
| `Connections.SetPeerAt` | src/sync_transport/connections.rs:56-63 | Naming the peer of the found entry in place is the specified list |
| `Connections.DropAt` | src/sync_transport/connections.rs:82-92 | Removing the found entry in place is the specified list |
| `ConnectionObject.ConnectionTracker.Find` | src/sync_transport/connections.rs:197-207 | The first connection of an endpoint, if there is one |
| `ConnectionObject.ConnectionTracker.RecordEndpoint` | src/sync_transport/connections.rs:31-42 | A known endpoint changes direction, a new one is appended without a peer |
| `ConnectionObject.ConnectionTracker.AuthenticatePeer` | src/sync_transport/connections.rs:44-80 | State, result and endpoints to close after a hello |
| `ConnectionObject.ConnectionTracker.CollapseDuplicates` | src/sync_transport/connections.rs:161-179 | Keeps one connection of the peer and reports the others in order |
| `ConnectionObject.ConnectionTracker.RemoveEndpoint` | src/sync_transport/connections.rs:82-100 | Removes the endpoint and says whether its peer is gone |
| `ConnectionObject.ConnectionTracker.PeerIsConnected` | src/sync_transport/connections.rs:155-159 | Decides whether the peer has an authenticated connection |
| `ConnectionObject.ConnectionTracker.AcceptInboundEvent` | src/sync_transport/connections.rs:129-153 | Accepts only a higher sequence from the peer the endpoint is authenticated as |
| `TrackerInvariant.AuthenticateKeepsSound` | src/sync_transport/connections.rs:44-80 | Any hello leaves endpoints unique and each peer on one authenticated connection at most |
| `TrackerInvariant.AuthenticateAddsPeer` | src/sync_transport/connections.rs:44-80 | A hello that does not change an endpoint's peer adds exactly that peer, and the result says "new" exactly when it was not online |
| `TrackerInvariant.RebindTakesOffline` | src/sync_transport/connections.rs:44-80 | A hello that does change it takes the old peer offline |
| `TrackerInvariant.RemoveTakesOffline` | src/sync_transport/connections.rs:82-100 | A removal reports its peer as gone, and no second connection can hold it |
| `Collapse.EndsAgreeOnDirection` | src/sync_transport/connections.rs:247-253 | Both ends prefer the connection the lower id opened |
| `Collapse.PreferredConnectionSurvives` | src/sync_transport/connections.rs:161-195 | Under every run of tracker events the preferred connection is never closed by collapse and is held once its hello has arrived |
| `Collapse.BothEndsKeepLowersConnection` | src/sync_transport/connections.rs:161-195 | Both machines, each on its own under any events that do not lose the connection the lower id opened: it survives at both and is held by both |
| `BothEnds.MoveKeeps` | src/sync_transport/connections.rs:161-195 | Every step of the two machines keeps the lower id's connection at both ends and closes it at neither |
| `BothEnds.LowersConnectionSurvives` | src/sync_transport/connections.rs:161-195 | The two machines as one system, where an end is lost only after the other closed it: in whatever order the two connections come up and are greeted, also when the other one was authenticated first, the connection the lower id dialed is closed by neither, lost by neither once open, and held by both after their hellos |
| `BothEnds.StrangersAreGood` | src/sync_transport/connections.rs:161-195 | Two machines that have not met are in a state of which that holds, whatever other connections they have |
| `Delivery.AcceptedOnce` | src/sync_transport/connections.rs:129-153 | Over any life of the tracker the accepted sequences of a peer strictly increase |
| `Delivery.AcceptedIffNewest` | src/sync_transport/connections.rs:129-153 | A correctly attributed event is accepted if and only if its sequence exceeds every one accepted from that peer before, across reconnects |
| `Sessions.TransportSession.EncodeEvent` | src/sync_transport/session.rs:50-62 | Numbers a valid event and takes the number only on success; refuses at the last number |
| `Sessions.NumbersAreConsecutive` | src/sync_transport/session.rs:50-62 | The frames of a session are numbered consecutively below the limit: failures burn none, and the counter never overflows |
| `WorkerObject.WorkerState.Handle` | src/sync_transport/worker.rs:125-149 | One network event or command: state, emissions, wire, closings and reply as the model says |
| `WorkerObject.WorkerState.CloseEndpoint` | src/sync_transport/worker.rs:297-306 | Announces a departure only when the removal found one, and always closes |
| `WorkerObject.WorkerState.SendHello` | src/sync_transport/worker.rs:281-295 | A hello that cannot be sent closes the endpoint |
| `WorkerObject.WorkerState.HandlePeerMessage` | src/sync_transport/worker.rs:151-177 | Bytes that do not decode close the endpoint |
| `WorkerObject.WorkerState.HandlePeerHello` | src/sync_transport/worker.rs:179-227 | Incompatible peers are reported and closed; otherwise duplicates are closed and a new peer announced |
| `WorkerObject.WorkerState.HandleDomainEvent` | src/sync_transport/worker.rs:229-279 | Handed on only when accepted; replays are dropped without closing |
| `WorkerObject.WorkerState.SendPayload` | src/sync_transport/worker.rs:114-123 | A failed send closes the endpoint |
| `WorkerObject.WorkerState.Broadcast` | src/sync_transport/worker.rs:88-99 | One frame to each endpoint authenticated when the command came, with the number that took it |
| `WorkerObject.WorkerState.SendTo` | src/sync_transport/worker.rs:101-112 | A peer that is not connected is answered before a number is used |
| `Announcements.InStepIff` | src/sync_transport/worker.rs:179-227 | The announced peers stay exactly the connected ones if and only if no hello changes the peer of an endpoint |
| `Announcements.StepKeepsSound` | src/sync_transport/worker.rs:125-306 | Every input keeps endpoints unique and each peer on one connection, rebinding or not |
| `Announcements.AnnouncementsMatchConnections` | src/sync_transport/worker.rs:125-306 | Over every run: sound connections, no removal ever finds the peer still connected, and without rebinding announced peers are exactly the connected ones |
| `Limits.SecondHelloLosesFirst` | src/sync_transport/worker.rs:179-227 | Two hellos of different peers on one accepted connection end out of step |
| `Announcements.ArrivalsAreSeparated` | src/sync_transport/worker.rs:179-227 | Between two announced arrivals of a peer lies its departure |
| `Announcements.EventsFollowArrival` | src/sync_transport/worker.rs:229-279 | A departure or an event of a peer follows an arrival that no departure has undone |
| `EndToEnd.FramesRise` | src/sync_transport/worker.rs:88-123 | Over every run the frames put on one connection carry strictly rising numbers and the sender's id |
| `EndToEnd.BroadcastReachesAll` | src/sync_transport/worker.rs:88-99 | A broadcast reaches every authenticated endpoint once, and those that fail are closed |
| `EndToEnd.StepHears` | src/sync_transport/worker.rs:229-279 | The daemon hears from a peer exactly when its message is taken, and then its highest number moves up |
| `EndToEnd.HeardIsTaken` | src/sync_transport/worker.rs:229-279 | Over every run a peer's events handed on are exactly those taken from it, in order |
| `EndToEnd.TakenOnce` | src/sync_transport/worker.rs:229-279 | Over every run the numbers taken from a peer rise strictly: nothing is handed on twice |
| `EndToEnd.SessionIsConsecutive` | src/sync_transport/session.rs:50-62 | All frames a worker numbers in a run, over all its connections, are numbered without gaps |
| `EndToEnd.WireCarriesSession` | src/sync_transport/worker.rs:88-123 | Whatever event goes out on any connection is one of those frames |
| `EndToEnd.EventsArriveOnce` | src/sync_transport/worker.rs:88-279 | From one worker to another: any frames of the session that arrive in order, over any connections, across reconnects and amid anything else, are handed on exactly once each, in order |
| `EndToEnd.WireEventsArriveOnce` | src/sync_transport/worker.rs:88-279 | The same from the network: what was on any wire and arrives with rising numbers is handed on completely, nothing twice |
| `CommandsArrive.CommandReaches` | src/sync_transport/worker.rs:88-123 | A command that goes out puts exactly one frame, with the next number and its own event to the millisecond, on each endpoint it is for and that takes it, and nothing on any other |
| `CommandsArrive.AnswerMeans` | src/sync_transport/worker.rs:71-123 | What the caller is told: how many connections took it, whether the peer did, or which refusal came first |
| `CommandsArrive.SessionCarriesCommands` | src/sync_transport/session.rs:50-62 | Over every run the frames of the session carry the events of the commands that went out, one each, in order |
| `CommandsArrive.SessionCountsFromOne` | src/sync_transport/session.rs:50-62 | Numbered from one on |
| `CommandsArrive.CommandsArriveOnce` | src/sync_transport/worker.rs:88-279 | From the commands given to one worker to what another hands on: the events of the commands whose frames arrive in order, each once, equal but for a fraction of a millisecond |
| `CommandsArrive.WireDeliversCommands` | src/sync_transport/worker.rs:88-279 | The same from the wire: what is handed on is the event of the command whose number the message carries |
| `Protocol.WholeMillisArrive` | src/sync_protocol.rs:283-390 | With whole milliseconds equal without exception |
| `EndpointCare.ReceivedDrops` | src/sync_transport/worker.rs:151-279 | What arrives closes its endpoint exactly if it is unreadable, invalid, from this machine itself, incompatible, unknown or not from the peer authenticated there; a hello that is taken closes all but one connection of its sender |
| `EndpointCare.CommandDrops` | src/sync_transport/worker.rs:88-123 | A command that is sent closes exactly the endpoints it is for that fail |
| `EndpointCare.OpeningDrops` | src/sync_transport/worker.rs:125-149 | A connection that opens gets a hello and is tracked, or is closed |
| `EndpointCare.OpeningRecords` | src/sync_transport/connections.rs:62-83 | It is recorded in its direction, keeps the peer it had, and changes no other connection |
| `EndpointCare.OpenedIsTrackedOrClosed` | src/sync_transport/worker.rs:125-306 | Over every run each connection ever opened is still tracked or has been closed |
| `EndpointCare.HelloComesFirst` | src/sync_transport/worker.rs:281-295 | Over every run no event goes out on a connection before its hello |
| `ActivityObject.ActivityPoller.QueueSample` | src/activity.rs:32-63 | Queues a tick, unobserved idle time and one interval of active or idle time |
| `ActivityObject.ActivityPoller.NextEvent` | src/activity.rs:80-82 | Events come out in the order they were queued |
| `ActivityAccounting.SamplesCoverTime` | src/activity.rs:32-73 | Over any readings active time is one interval for each active one, and active plus idle time covers all the time there was |
| `ActivityAccounting.CoveredIsElapsed` | src/activity.rs:65-73 | While the clock goes forward no time is lost, and the account is exact if and only if no reading comes early |
| `ActivityAccounting.SamplesAreFunded` | src/activity.rs:32-63 | Whatever active time is queued is within the tick queued before it |
| `ActivityAccounting.LocalActivityIsCreditedInFull` | src/runtime.rs:1110-1131 | So the daemon credits all of it, whatever else it handles in between that leaves the budget alone: manual starts, breaks and resets from peers, everything but a peer's activity |
| `ActivityAccounting.DeadlineMeans` | src/activity.rs:138-158 | A break is over exactly when its time has come, and a clock set back never lengthens it |
| `ActivityAccounting.SameBreakEndsTogether` | src/runtime.rs:664-669 | Two machines with the same clock end a shared break within a millisecond, whenever each began to show it |
| `BreakTimes.TurnIsTimely` | src/runtime.rs:624-674 | Whatever makes a daemon start, join or replace a break: the command carries a positive time, and with the time since the start it is the duration of the rule |
| `MacHelperObject.MacOSHelperCore.HandleCommand` | src/macos_helper.rs:331-345 | Each backend command changes the shown break and tells the helper as the model says |
| `MacHelperObject.MacOSHelperCore.StartBreak` | src/macos_helper.rs:240-246 | Shown only once the helper acknowledged it |
| `MacHelperObject.MacOSHelperCore.ReplaceActiveBreak` | src/macos_helper.rs:347-361 | New deadline and lock decision, and a finish put off is forgotten |
| `MacHelperObject.MacOSHelperCore.FinishActiveBreak` | src/macos_helper.rs:258-276 | Taken down once; the helper or the lock command locks |
| `MacHelperObject.MacOSHelperCore.FinishBreak` | src/macos_helper.rs:248-252 | A finish that fails asks the daemon to stop |
| `MacHelperObject.MacOSHelperCore.RequestLockAfterCurrentBreak` | src/macos_helper.rs:299-314 | Remembered and passed on while a break is shown |
| `MacHelperObject.MacOSHelperCore.ClearBreak` | src/macos_helper.rs:293-297 | Forgotten only once the helper acknowledged it |
| `MacHelperObject.MacOSHelperCore.SampleOnce` | src/macos_helper.rs:146-165 | One look at the overlay or at the activity |
| `MacHelperObject.MacOSHelperCore.SampleDeferred` | src/macos_helper.rs:180-203 | A finish put off fires on an unlocked sample and locks nothing |
| `MacHelperObject.MacOSHelperCore.SampleRunning` | src/macos_helper.rs:205-238 | Updates, finishes or puts off the finish, and reports the elapsed time |
| `MacHelperRuns.FinishedOncePerStart` | src/macos_helper.rs:175-283 | Over every run, acknowledged or not: no more finishes reach the helper than breaks were shown, and the daemon hears of each at most once |
| `MacHelperRuns.DeferredStep` | src/macos_helper.rs:175-203 | A finish put off ends exactly on an unlocked sample or one of four commands, and fires exactly on the sample or a finish command |
| `MacHelperRuns.DeferredLocksIff` | src/macos_helper.rs:278-283 | The one step that locks a break whose finish was put off is a finish command that says so, when the helper acknowledges it or does the locking itself |
| `MacHelperRuns.DeferredNeverLocks` | src/macos_helper.rs:278-283 | However a run without such a step goes on until the next break, neither the helper nor the lock command locks, not even when a lock was requested meanwhile and a finish that locks comes after the break is gone |
| `ClosedLoop.MoveLinked` | src/macos_helper.rs:94-119 | One step of daemon or backend keeps the two linked: an overlay is up once the queues are carried out exactly when a break is shown, unless a finish or a shutdown is on its way |
| `ClosedLoop.OverlayMatchesBreak` | src/macos_helper.rs:94-119 | Daemon and backend with their queues, over every interleaving, acknowledged or not, that leaves both running: when the queues are empty the helper shows an overlay exactly when the daemon shows a break |
| `OverlayContent.TurnIsTruthful` | src/runtime.rs:597-769 | Each input changes the break the daemon shows only with a command that says how: a start or replacement carries its message and lock, a lock request changes nothing but the lock, a finish or clear leaves none |
| `OverlayContent.MoveFaithful` | src/macos_helper.rs:94-119 | Every step of daemon or backend keeps what the overlay will say once the commands are carried out equal to the break shown, but for a lock asked for at the screen that the daemon has yet to hear of |
| `OverlayContent.OverlayIsOfCurrentBreak` | src/macos_helper.rs:94-119 | So, over every interleaving, with no command, screen request or stop on its way, an overlay that is up carries the message of the break the daemon shows and locks exactly if that one does |
| `OverlayTimes.OverlayEndsWithBreak` | src/macos_helper.rs:405-484 | With clocks that agree, over every interleaving from start-up and with no command or stop on its way: an overlay comes down at the start of the break shown plus the duration of its rule, to the millisecond, and later only by the time its command took |
| `OverlayTimes.OverlaysEndTogether` | src/macos_helper.rs:405-484 | So two machines that show the same break end it within a millisecond of each other but for those times |
| `LockedFinish.OnlyFinishedFinishes` | src/runtime.rs:822-844 | The daemon sends a finish for no reason but the backend's report |
| `LockedFinish.CanLockIff` | src/macos_helper.rs:175-203 | A break that was over in a locked session, with the daemon, the backend and both queues in any state a run reaches: some run without another break or replacement locks the session if and only if the first command on its way that settles the fate of the break is a finish that locks, or there is none, the daemon still shows a break and a reported finish is queued before any shutdown |
| `LockedFinish.LockedFinishNeverLocks` | src/macos_helper.rs:175-203 | Otherwise no such run locks it, whatever is asked meanwhile, however the daemon answers and whatever is acknowledged |
| `LockedFinish.StaleFinishLocksIff` | src/macos_helper.rs:248-276 | With no command on its way and no shutdown: exactly if a finish, of an earlier break, is still queued |
| `LockedFinish.RunIsSound` | src/macos_helper.rs:94-119 | What `CanLockIff` asks of the state holds after every run of the two, acknowledged or not |
| `LockedFinish.DaemonAnswersWithLock` | src/runtime.rs:822-861 | The daemon's answer to a reported finish asks for a lock when one was requested |
| `StaleFinish.WaitingBreakCanLock` | src/macos_helper.rs:175-203 | Eight steps from start-up that lead to a waiting break which can still lock: a break ends, before the daemon hears of it the user turns breaks off and starts another, and that one is over in a locked session |
| `FinishReports.ReportIsForShownIff` | src/runtime.rs:822-844 | From start-up over every interleaving, with every break numbered that the daemon starts or puts in place of another, and each report carrying the number on the screen: a finish the daemon hears ends the break it shows; that break has been reported over if and only if no overlay is or will be up, no replacement was on its way when the last report was queued and none was sent since; and the report heard is its own if and only if moreover no second one is queued |
| `FinishReports.OverlayIsOfLastBreak` | src/macos_helper.rs:94-119 | With no command on its way and no shutdown an overlay that is up has the number of the break the daemon began last |
| `StaleFinish.NewBreakIsCutShort` | src/runtime.rs:822-844 | Nine steps from start-up after which a break with a full minute left is ended by the report about the one before |
| `StaleFinish.ReplacementIsCutShort` | src/runtime.rs:747-769 | Six steps from start-up, with valid events of one peer, after which a break that took the place of the reported one is ended by that report with all but a millisecond left, though it is the only report and nothing is on the screen |
| `MacHelperRuns.BreakLastsItsDuration` | src/macos_helper.rs:413-448 | A break is shown through every sample before its time is up, and the first later one takes it down, or puts that off while the session is locked |
| `MacHelperRuns.CommandTellsTimeLeft` | src/macos_helper.rs:331-363 | A command that shows or changes an overlay tells the helper the time left to its deadline |
| `MacHelperRuns.SampleTellsTimeLeft` | src/macos_helper.rs:413-448 | So does every sample of a running break, with whether it will lock |
| `MacHelperRuns.CommandStopsIff` | src/macos_helper.rs:240-329 | A command queues a stop exactly if what it says is not acknowledged or the lock command it runs does not start, and nothing else |
| `MacHelperRuns.SampleStopsIff` | src/macos_helper.rs:146-203 | A sample stops the backend exactly for the same reasons, or if it cannot be taken |
| `MacHelperRuns.OneLocks` | src/macos_helper.rs:258-291 | A finish that locks and is acknowledged asks either the helper or the lock command and never both, any other neither |
| `MacHelperRuns.LockedOncePerBreak` | src/macos_helper.rs:248-291 | Over every run from start-up: no more locks are asked for than breaks were shown, and none from the side that is not configured to lock |
| `MacHelperRuns.OverlayTimeTelescopes` | src/macos_helper.rs:444-448 | While a break is shown the wall-clock time reported is exactly the time between first and last look |

## Left out

- The status line, the manual-break menu and their refreshes after each daemon input: display only.
- The test-only path `start_synced_break` of the scheduler, `is_disabled` and `Display` forms.
- X11 overlay and activity, the Swift helper, the tray and notifications: foreign calls. The helper is
  an outside that acknowledges or not.
- Sockets, discovery, threads and channel selection: inputs arrive in an arbitrary sequence, outputs are
  recorded. A backend that no longer takes commands is an input; other channels do not fail.
- JSON, HMAC, the shared secret and the compatibility fingerprint: bytes decode to the message that was
  encoded or to nothing, and a hello says whether its fingerprint matches.
- Loading, defaults and paths of the configuration, lock and disable presets: they feed none of the state
  machines here.
- Saturation of durations, time stamps and slots at their machine limits: naturals are unbounded here. The
  limit is kept for the session sequence only.
- `checked_add` in a break deadline: an end time past the representable range is not modelled.
- Iteration order of the peer's map of satisfied slots: which of several faults validation names is open.
- The delay until the macOS backend takes its next sample: samples may come at any time.
- Shutdown of the worker and of the macOS helper: closing what is left at the end.
- Convergence.PeersAgree: speaks of scheduled breaks with distinct slot and start time that are
  announced with their own slot as position, because the code does not converge on the others.
- EndToEnd.EventsArriveOnce: the messages are assumed to arrive on connections authenticated as their
  sender and to be valid after the wire; when they are is `Protocol.ValidAfterWireIff`.
- BothEnds.LowersConnectionSurvives: one connection in each direction, since two in the same direction are
  not told apart by the rule; network failures and frames that close a connection are left out.
- FinishReports.ReportIsForShownIff: speaks of states with no shutdown queued, since after a start that the
  helper did not acknowledge the daemon is about to stop and shows a break that never came up.
