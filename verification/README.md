# Verification of the dynamic recorder

The recorder writes events into the bag so that the bag explains its own gaps, and the reader rebuilds the timeline
from those events. This project models both halves, and the machinery between them, in Dafny and proves that the
contract holds.

- `Windows`, `Timeline`, `Report`, `Holes`: the reader. Times are integer nanoseconds and a window is half-open, so a
  window list means a finite set of instants and "seconds" is the size of such a set. The list code is proved equal
  to those set meanings.
- `BagStore`: the bag and its staging queue, as an object whose methods are tied to functions on its state.
  `Interleaving`: the same operations cut into atomic steps (try the lock, poll the busy flag, stage, swap out the
  batch, write one, release) and run by any number of threads in any order. `Fates`: where each step takes the
  messages and what it tells the writer. `Solo`: one thread alone does what the object's methods do. `NextBag`: which
  messages can outlive a stop and be written into a later bag. `Stragglers`: how the stage can change while no bag is
  open. `LateMessage`: a run in which a message outlives a stop.
- `Scheduling`: the scheduler's slots, timers and cached flag, as an object and as an interleaving of the service
  group with message callbacks. `Timers`: the object's operations are that interleaving's steps in a row.
- `RecorderState`: what each recorder operation does, as functions from state to state; `Renewal`: record() with the
  loss books and the storage path it also changes; `Recorder`: the recorder object, each of whose methods is proved
  to take its fields where the function of that operation says. `RecorderInvariants` and `RecorderRuns`: what every
  command and every run of commands keeps. `Promises`: a small machine of what the services promise, of which every
  command is a step. `Journal`: what each command writes into the log. `Reading`: what a reader makes of a bag's
  calls, recorded messages that look like events included. `Delivery`, `Recording`: which messages a bag holds.
  `Explanation`, `Misled`, `Described`, `SelfStop`: the reader and its report applied to the recorder's bag.
  `Selections`, `Types`, `Requests`, `Lifecycle`, `CleanCut`, `Profiles`, `TopicSelection`: what the services
  promise. `Losses`: the loss books. `Names`, `Sums`, `Options`: sorted names, sums over maps, and an option type.

What the node clock, the graph, the writer, rclcpp and the file system answer are parameters of the model: a `Tick`
says how far the clock moved and what became of an event, an `Attempt` what a subscription met, an `Opening` and a
`Stopping` what opening and closing met. The theorems hold for every such answer unless they say otherwise. Those on
what the bag explains ask that the events of the signal in question (one topic's subscription, or the pause) be
recorded and stored, and that no recorded message imitate them. A pause or subscription transition and its event are
one step at the event's stamp.

The main results:

- `Explanation.BagExplainsItself`, `ReaderSeesTheRecorder` and `Described.ReportIsTrue`: the composition of recorder,
  bag, reader and report. They cover a bag opened while paused, topics dropped and added again, and bags opened after
  any earlier history.
- `Windows.LiveIsMeasure`, `UnexplainedExact`, `Timeline.EventWindowsExact`: the reader on arbitrary input.
- `Interleaving.FifoPerProducer`, `ExactlyOnePlace`, `CloseWritesWhatWasStaged`, `Fates.EveryStepAccounts`,
  `LostOnlyWhenFull`, `NextBag.LateExactly`: the bag under every interleaving.
- `Scheduling.OnlyLiveSchedulesFire`, `EachFiresOnce`, `FastPathRefinesSlow`, `Timers.FiresExactlyTheDue`: the
  scheduler over every run; `Promises.LiveTimerIsForItsSchedule`: the same scheduler inside the recorder.
- `Promises.EveryCommandFollows`, `Journal.EveryCommandJournaled`, `Recording.RunHoldsExactly`: what every command of
  the recorder does, what it writes into the log, and which messages a bag holds in the end.
- `Selections.ReplaceIsExact`, `Types.ReplyIsExact`, `Lifecycle.StopRecordRoundTrip`,
  `CleanCut.ScheduledResumeCutsCleanly`, `Losses.TopicBooksBalance`, `MissedClosedForm` and `TopicMissedExactly`.

Where the code does less than its comments suggest, the exact condition is proved:

- "Nothing arriving after it is written" (bag.cpp lines 142-148) fails: a message passed to write() before or during
  a stop can be written into a later bag. When the stop is over this can still happen to a message if and only if it
  is staged already, as when its thread stages it after the last flush and before the unlock, or its write() has not
  finished and another thread exists to open a bag. A thread that has read the busy flag will stage its message, so
  it also takes a bag whose cache has room for it; one that has not will write it directly (`NextBag.LateExactly`,
  `LateWithAnyCache`, `LateMessageReachesNextBag`).
- A request may name the recorder's own event topics; only the pattern search leaves them out. What such a
  subscription delivers, the last ten events of an earlier bag included, is written on the event channel and read
  back as events of this bag. At each instant of the bag the reader is then right, whatever those messages say, if
  and only if none of them comes after the last own event that toggles the signal at that very instant
  (`ExplainsUnlessContested`); `ReaderIsMisled` is a run in which it is wrong, and a run that delivers no such
  message has none (`NoneDelivered`).
- A kept topic that left the graph is listed unavailable, though it stays recorded (`KeptButUnavailable`). A request
  that only keeps topics is answered with an error if and only if it is not empty and no type is found for any of
  them (`KeptFailsExactly`, `RefusedYetKept`); what fails any batch is `FailsExactly`.
- A sequence number that follows the maximum value wraps the gap computation. The count is right if and only if the
  stored number is not that value, which the recorder filters out as "unsupported", or the number that follows is 0
  (`GapIsSkip`).
- A record() that is refused leaves the recorder's state as it was, but one that fails at the writer has by then
  replaced the storage path and reset the loss books (dynamic_recorder.cpp lines 199-201). Both survive a refused
  record() if and only if a bag was open, no path was free, or no loss was counted and the path found is the one in
  use (`RefusedKeepsExactly`); `TotalsAreForgotten` is a call that loses the totals of the last bag.
- A hole that every channel is said to share can hold messages: gaps that touch are merged across the message between
  them, and a channel with a single message is not asked. No data message lies strictly inside a reported gap if and
  only if the gap lies inside one single gap of every data channel with more than one message and no data channel's
  only message lies strictly inside it (`Holes.SilentExactly`); `TouchingGapsHideAMessage` and
  `LoneMessageIsNotAsked` are the two ways it fails.

## Model

| member | source | states |
|---|---|---|
| `Windows.MergeWindows` | packages/dynrec/dynrec/bag.py:131-140 | The loop over the sorted, non-empty windows computes `Merge`, whose meaning the next rows fix. |
| `Windows.MergeExact` | packages/dynrec/dynrec/bag.py:131-140 | Merging keeps exactly the instants covered and yields the canonical form: sorted, non-empty, no two windows touching. |
| `Windows.CanonicalIsRuns` | packages/dynrec/dynrec/bag.py:131-140 | The windows of a canonical list are exactly the maximal unbroken stretches of its instants. |
| `Windows.CanonicalUnique` | packages/dynrec/dynrec/bag.py:131-140 | Two canonical lists covering the same instants are the same list. |
| `Windows.MergeDependsOnPoints` | packages/dynrec/dynrec/bag.py:131-140 | Two inputs merge alike if and only if they cover the same instants: order, repetition and cuts do not matter. |
| `Windows.MergeFixesCanonical` | packages/dynrec/dynrec/bag.py:131-140 | Merging changes a list if and only if it was not canonical; so merging is idempotent. |
| `Windows.IntersectExact` | packages/dynrec/dynrec/bag.py:143-146 | Intersection covers exactly the instants both lists cover, in canonical form, for any two lists. |
| `Windows.IntersectCommutes` | packages/dynrec/dynrec/bag.py:143-146 | The order of the two lists does not matter. |
| `Windows.IntersectAssociates` | packages/dynrec/dynrec/bag.py:143-146 | Nor does the grouping of three. |
| `Windows.OverlapSize` | packages/dynrec/dynrec/bag.py:149-151 | `overlap` counts the instants two windows share, reversed and empty ones included. |
| `Windows.LiveIsMeasure` | packages/dynrec/dynrec/bag.py:189-195 | For any windows and pauses the sum counts the instants in some window and no pause, and the clamp at zero never acts. |
| `Windows.LiveMonotone` | packages/dynrec/dynrec/bag.py:189-195 | More windows or fewer pauses never mean less live time. |
| `Windows.UnexplainedGaps` | packages/dynrec/dynrec/bag.py:205-224 | The loop with its early exit returns what the code without the exit would. |
| `Windows.NothingSharedStays` | packages/dynrec/dynrec/bag.py:215-218 | Once nothing is shared no further channel can share anything, so leaving early loses nothing. |
| `Windows.UnexplainedExact` | packages/dynrec/dynrec/bag.py:205-224 | A gap is reported if and only if it is a maximal stretch missing from every channel, at least the threshold long, with no single maximal paused stretch over more than half of it. |
| `Windows.UnexplainedIgnoresOrder` | packages/dynrec/dynrec/bag.py:205-224 | The report depends neither on the order or repetition of channels nor on how gaps and pauses are cut. |
| `Timeline.StreamIsSuffix` | packages/dynrec/dynrec/results.py:361-367 | A channel belongs to a stream if and only if its name ends with that stream's suffix: no name ends with two. |
| `Timeline.ComputeEventWindows` | packages/dynrec/dynrec/bag.py:154-170 | The loop over the events in stamp order computes `EventWindows`. |
| `Timeline.EventWindowsExact` | packages/dynrec/dynrec/bag.py:154-170 | For any event list an instant is covered if and only if the last opening-or-closing event at or before it, ties in list order, is an opening, and the end or a later closing event lies beyond it. |
| `Timeline.SortKeepsLatest` | packages/dynrec/dynrec/bag.py:160-160 | Sorting by stamp, stably, does not change which event decides an instant. |
| `Timeline.SortIsStable` | packages/dynrec/dynrec/bag.py:279-279 | Sorting loses, adds and repeats no event, and leaves events of one stamp in the order they were read. |
| `Timeline.OpenAtIsLatest` | packages/dynrec/dynrec/bag.py:160-167 | The declarative "last toggle" and the one-pass scan for it agree. |
| `Timeline.PauseWindowsWithoutEnd` | packages/dynrec/dynrec/bag.py:181-186 | Without a bag end an unresumed pause ends at the last event: nothing at or after every event is covered. |
| `Report.GapsExact` | packages/dynrec/dynrec/bag.py:227-230 | The gaps are exactly the stretches of threshold length between neighbouring stamps, in whatever order the stamps were read. |
| `Report.WindowsInsideBag` | packages/dynrec/dynrec/bag.py:277-287 | When every event carries the log time it was written with, the windows lie inside the bag. |
| `Report.TimesAreNested` | packages/dynrec/dynrec/bag.py:277-309 | For every channel active time is at most recorded time, which is at most the bag's duration, when every event carries the log time it was written with, as the recorder writes them. |
| `Report.RateIsNotBelowAverage` | packages/dynrec/dynrec/bag.py:198-202 | Then the rate reported over the active time is never below the rate over the whole bag. |
| `Report.RatesCount` | packages/dynrec/dynrec/bag.py:198-202 | A rate times the seconds it is over gives the messages back; there is one if and only if there was active time, and an averaged rate of zero if the bag has no duration. |
| `Report.RecordsCountOnce` | packages/dynrec/dynrec/bag.py:263-267 | Every record counts once for its channel, however many are alike. |
| `Report.EventsCountOnce` | packages/dynrec/dynrec/bag.py:268-270 | So does every event. |
| `Report.ReadBag` | packages/dynrec/dynrec/bag.py:253-270 | Reading collects, per channel, the stamps in reading order, and the events of the channels whose names end like an event stream. |
| `Report.MeasureChannel` | packages/dynrec/dynrec/bag.py:284-309 | Count, first and last stamp, both rates, and the basis: events when there are windows, else the span of more than one message, else nothing. Recorded and active seconds count instants: covered and in no pause, and of these the ones within the span. |
| `Report.MeasureCounts` | packages/dynrec/dynrec/bag.py:284-309 | So they do for any stamps, windows and pauses; the rate is the count over the active time, if there is any, and the averaged rate the count over the duration. |
| `Report.MeasureChannels` | packages/dynrec/dynrec/bag.py:283-314 | Each data channel is measured in turn, and those with more than one message hand their gaps on. |
| `Report.Warn` | packages/dynrec/dynrec/bag.py:329-358 | A warning is given for each kind of event the bag has none of, for each unexplained gap, and for each stop, and no other. |
| `Report.Describe` | packages/dynrec/dynrec/bag.py:272-326 | The summary holds start, end, the sorted events, pauses, the times of exactly the channels that are no event channels, in sorted order, the unexplained gaps, the last low-disk and bag-size stop, and the warnings. |
| `Report.ReportedGapsExact` | packages/dynrec/dynrec/bag.py:311-314 | A gap is reported if and only if it is a maximal stretch inside some gap of every data channel with more than one message, a second or longer, with no single pause over more than half of it. |
| `Holes.SilentExactly` | packages/dynrec/dynrec/bag.py:205-230 | No data message lies strictly inside a reported gap if and only if the gap lies inside one single gap of every data channel with more than one message, and no data channel with one message has it strictly inside. |
| `Holes.TouchingGapsHideAMessage` | packages/dynrec/dynrec/bag.py:131-140 | Two gaps of one channel that touch at a message are reported as one gap around it. |
| `Holes.LoneMessageIsNotAsked` | packages/dynrec/dynrec/bag.py:311-314 | The only message of a channel can lie inside a gap reported for the others. |
| `Names.StrictIsSet` | packages/rosbag2_dynamic_recorder/src/recorder_services.cpp:425-433 | Two strictly sorted lists are equal if and only if they name the same set. |
| `Names.UniqueStrict` | packages/rosbag2_dynamic_recorder/src/recorder_config.cpp:62-63 | Sorting and then dropping neighbours that repeat leaves a strictly sorted list. |
| `Names.SortedKeys` | packages/rosbag2_dynamic_recorder/src/dynamic_recorder.cpp:249-259 | Dumping the subscriptions in any order and sorting gives the one strictly sorted list of them. |
| `Names.LeqIsLexicographic` | packages/rosbag2_dynamic_recorder/src/dynamic_recorder.cpp:257-257 | The order is that of a dictionary. |
| `Losses.LossAccounting.Note` | packages/rosbag2_dynamic_recorder/src/loss_accounting.cpp:24-38 | A sequence number counts the numbers skipped since the publisher's last, and is stored even when smaller. |
| `Losses.LossAccounting.NoteTransport` | packages/rosbag2_dynamic_recorder/src/loss_accounting.cpp:40-48 | A transport loss is added to the total, the pending and the per-topic book. |
| `Losses.LossAccounting.NoteRecorder` | packages/rosbag2_dynamic_recorder/src/loss_accounting.cpp:50-58 | A recorder loss is added to the total, the pending and the per-topic book. |
| `Losses.LossAccounting.Drain` | packages/rosbag2_dynamic_recorder/src/loss_accounting.cpp:71-81 | Draining hands out the pending book and empties it, and leaves every other book alone. |
| `Losses.LossAccounting.ResetAll` | packages/rosbag2_dynamic_recorder/src/loss_accounting.cpp:93-101 | Resetting empties every book. |
| `Losses.TopicBooksBalance` | packages/rosbag2_dynamic_recorder/src/loss_accounting.cpp:40-101 | In every run, per topic, what was drained since the last reset plus what is pending equals the running total. |
| `Losses.GlobalBooksBalance` | packages/rosbag2_dynamic_recorder/src/loss_accounting.cpp:24-101 | In every run the topics' totals sum to the global totals, in 64-bit arithmetic. |
| `Losses.GapIsSkip` | packages/rosbag2_dynamic_recorder/src/loss_accounting.cpp:29-30 | The counted gap is the true number of skipped numbers, with no overflow, if and only if the last number stored is not the maximum value, which stands for "unsupported", or the number that follows is 0. |
| `Losses.MissedClosedForm` | packages/rosbag2_dynamic_recorder/src/loss_accounting.cpp:24-101 | In every run, resets included, and for publishers interleaved in any way, missed is the sum over them of last - first + 1 - received since the last reset, plus the slack of numbers that failed to increase; after a reset the first is the number after the last one seen. |
| `Losses.SlackIsDisorder` | packages/rosbag2_dynamic_recorder/src/loss_accounting.cpp:24-38 | That slack is zero if and only if every publisher's numbers strictly increase since the last reset. |
| `Losses.TopicMissedExactly` | packages/rosbag2_dynamic_recorder/src/loss_accounting.cpp:24-38 | In every run each topic is charged exactly the numbers skipped on it since the last reset, whichever publishers skipped them. |
| `Losses.AvailableOnceSeen` | packages/rosbag2_dynamic_recorder/src/loss_accounting.cpp:27-27 | Sequence numbers are reported available if and only if one was ever seen, resets notwithstanding. |
| `BagStore.Bag.WriteLocked` | packages/rosbag2_dynamic_recorder/src/bag.cpp:256-270 | One write reaches the writer and counts as written or as an error. |
| `BagStore.Bag.Stage` | packages/rosbag2_dynamic_recorder/src/bag.cpp:272-295 | A message is queued, and the cached size and count follow, if and only if the bytes staged and its own are within the limit; otherwise it is reported lost. |
| `BagStore.Bag.FlushStagedLocked` | packages/rosbag2_dynamic_recorder/src/bag.cpp:297-312 | The whole stage is taken out; an open bag writes it in order, a closed one discards it. |
| `BagStore.Bag.Write` | packages/rosbag2_dynamic_recorder/src/bag.cpp:224-254 | A message that saw a busy writer is staged; any other goes after what is staged, or is discarded by a closed bag. |
| `BagStore.Bag.OpenBag` | packages/rosbag2_dynamic_recorder/src/bag.cpp:82-133 | Opening an open bag, or a path the writer refuses, changes nothing; a new bag starts with no channels and zeroed counters, and keeps the stage. |
| `BagStore.Bag.CloseBag` | packages/rosbag2_dynamic_recorder/src/bag.cpp:135-155 | Closing writes the stage, clears the open flag, closes the writer, and discards what was staged meanwhile; a second close does nothing. |
| `BagStore.Bag.CreateChannelLocked` | packages/rosbag2_dynamic_recorder/src/bag.cpp:210-222 | A created channel is noted with its type; a channel already noted keeps its own. |
| `BagStore.Bag.EnsureChannel` | packages/rosbag2_dynamic_recorder/src/bag.cpp:190-208 | A channel of the same type is reused, one of another type refused, a missing one created. |
| `BagStore.Bag.WriteEvent` | packages/rosbag2_dynamic_recorder/src/bag.cpp:314-333 | An event creates its channel if it has to, is written before what is staged, and the stage is flushed after it. |
| `BagStore.Bag.SplitFile` | packages/rosbag2_dynamic_recorder/src/bag.cpp:335-356 | A split reaches the writer only while open. |
| `BagStore.Bag.TakeSnapshot` | packages/rosbag2_dynamic_recorder/src/bag.cpp:358-371 | A snapshot reaches the writer only while open. |
| `Interleaving.FifoPerProducer` | packages/rosbag2_dynamic_recorder/src/bag.cpp:224-312 | Under every interleaving what one thread passed to write() reaches the writer in its call order, whoever flushes it. |
| `Interleaving.ExactlyOnePlace` | packages/rosbag2_dynamic_recorder/src/bag.cpp:224-312 | In every reachable state a message whose write() is over is in exactly one place, once: handed over, lost, discarded, in a batch being flushed, or staged. |
| `Interleaving.StageBooks` | packages/rosbag2_dynamic_recorder/src/bag.cpp:272-312 | Between locked sections the cached size and count are those of the queue, and the size stays within the largest cache any bag had. |
| `Interleaving.StageWithinCache` | packages/rosbag2_dynamic_recorder/src/bag.cpp:127-128 | With one cache size for every bag the staged bytes never exceed the limit in force. |
| `Interleaving.WriterProtocol` | packages/rosbag2_dynamic_recorder/src/bag.cpp:59-155 | Nothing reaches the writer before an open or after its close; a set busy flag means its holder has the lock. |
| `Interleaving.CountersAreTrue` | packages/rosbag2_dynamic_recorder/src/bag.cpp:256-270 | The written and error counts are those of the calls since the last open. |
| `Interleaving.CloseWritesWhatWasStaged` | packages/rosbag2_dynamic_recorder/src/bag.cpp:135-155 | Whatever the other threads do, everything staged when close() takes the lock is handed over before the writer is closed. |
| `NextBag.LateExactly` | packages/rosbag2_dynamic_recorder/src/bag.cpp:224-312 | When a stop is over, a message some thread had passed to write() can still be written into a bag opened later if and only if it is staged, or its write() has not finished and another thread exists to open a bag meanwhile, and, once the thread has read the busy flag, some bag that may be opened has room for it. For any set of cache sizes the bags may have. |
| `NextBag.LateWithAnyCache` | packages/rosbag2_dynamic_recorder/src/bag.cpp:127-128 | With no bound on cache sizes the room is never an obstacle: staged, or unfinished with another thread there. |
| `Stragglers.StagesOnlyThroughStragglers` | packages/rosbag2_dynamic_recorder/src/bag.cpp:233-239 | After a stop, whatever it left staged, the stage can change before any bag is opened if and only if some thread had already read the busy flag and has a message that fits. |
| `LateMessage.LateMessageReachesNextBag` | packages/rosbag2_dynamic_recorder/src/bag.cpp:121-131 | A concrete run in which a message passed to write() during a stop is written into the bag opened after it. |
| `Interleaving.BusyNeverBlocksAMessage` | packages/rosbag2_dynamic_recorder/src/bag.cpp:233-241 | While the writer is busy every step of a write() can be taken and brings it closer to its end. |
| `Interleaving.ChannelsOnlyGrow` | packages/rosbag2_dynamic_recorder/src/bag.cpp:190-222 | Until the next open, under every interleaving, no channel disappears or changes its type. |
| `Fates.EveryStepAccounts` | packages/rosbag2_dynamic_recorder/src/bag.cpp:224-312 | In every reachable state each step takes the messages to one place: a parked message is staged if it fits with the messages staged and lost if it does not; only a closed bag discards, and what a write or a flush brings an open one is handed to the writer. No step moves any other message. |
| `Fates.LostOnlyWhenFull` | packages/rosbag2_dynamic_recorder/src/bag.cpp:272-295 | In every run each message reported lost found the stage too full for it when its thread came to stage it. |
| `Fates.ParksOnlyPastBusy` | packages/rosbag2_dynamic_recorder/src/bag.cpp:233-239 | A thread comes to stage its message only by reading the busy flag set. |
| `Fates.BusyEndsFlushed` | packages/rosbag2_dynamic_recorder/src/bag.cpp:59-71 | Whatever the other threads do, everything staged when a slow operation comes to clear the busy flag is handed to the writer, or discarded if the bag was closed, by the time it gives back the lock. |
| `Fates.WriterIsTold` | packages/rosbag2_dynamic_recorder/src/bag.cpp:82-371 | Each step makes exactly the writer calls due, and the staging limit in force is that of the bag opened last, the default if it asked for none. |
| `Solo.SoloWrite` | packages/rosbag2_dynamic_recorder/src/bag.cpp:224-254 | From holding the lock on, a write() run with no interference does what the object's method does. |
| `Solo.SoloPark` | packages/rosbag2_dynamic_recorder/src/bag.cpp:233-239 | So it does from reading the busy flag set on. |
| `Solo.SoloOperation` | packages/rosbag2_dynamic_recorder/src/bag.cpp:82-371 | So does every other operation. |
| `Scheduling.Scheduler.UpdateMessageTimePending` | packages/rosbag2_dynamic_recorder/src/scheduler.cpp:62-68 | The flag becomes what the resume and split slots say. |
| `Scheduling.Scheduler.Replace` | packages/rosbag2_dynamic_recorder/src/scheduler.cpp:70-78 | The old timer is cancelled, the slot set and the flag recomputed. |
| `Scheduling.Scheduler.ScheduleAtNodeTime` | packages/rosbag2_dynamic_recorder/src/scheduler.cpp:80-98 | A node-time schedule takes the slot and gets a timer of its own. |
| `Scheduling.Scheduler.ScheduleAtMessageTime` | packages/rosbag2_dynamic_recorder/src/scheduler.cpp:100-104 | A message-time schedule takes the slot with no timer. |
| `Scheduling.Scheduler.OnTimer` | packages/rosbag2_dynamic_recorder/src/scheduler.cpp:87-96 | A timer cancels itself and empties its slot, leaving the flag as it is. |
| `Scheduling.Scheduler.Pending` | packages/rosbag2_dynamic_recorder/src/scheduler.cpp:106-116 | The list holds the scheduled slots in order. |
| `Scheduling.Scheduler.TakeDue` | packages/rosbag2_dynamic_recorder/src/scheduler.cpp:118-139 | With the flag clear nothing is looked at; otherwise due resumes and splits leave their slots. |
| `Scheduling.Scheduler.Clear` | packages/rosbag2_dynamic_recorder/src/scheduler.cpp:141-152 | Resume and split lose timer and slot; a scheduled record stays. |
| `Scheduling.OnlyLiveSchedulesFire` | packages/rosbag2_dynamic_recorder/src/scheduler.cpp:70-152 | In every run a schedule fires only while it is the newest of its kind and uncleared: by its timer, or on a message of its topic whose stamp is nonzero and not before it. |
| `Scheduling.EachFiresOnce` | packages/rosbag2_dynamic_recorder/src/scheduler.cpp:70-152 | Between two firings of a kind there is a new setting of the schedule that fires second. |
| `Scheduling.ClearedStaysCleared` | packages/rosbag2_dynamic_recorder/src/scheduler.cpp:141-152 | After a clear no resume or split fires unless set again. |
| `Scheduling.PendingIsLive` | packages/rosbag2_dynamic_recorder/src/scheduler.cpp:106-116 | In every run the pending list is exactly the schedules set and neither fired, replaced nor cleared. |
| `Scheduling.NodeTimeHasItsTimer` | packages/rosbag2_dynamic_recorder/src/scheduler.cpp:80-98 | Between service operations a node-time schedule is pending if and only if its timer is live, and that timer is its own. |
| `Scheduling.FastPathRefinesSlow` | packages/rosbag2_dynamic_recorder/src/scheduler.cpp:62-139 | At every state with the mutex free the flag says exactly whether a message-time schedule is pending, though a timer leaves it alone; so the early return changes nothing. |
| `Timers.NodeTimeAlone` | packages/rosbag2_dynamic_recorder/src/scheduler.cpp:70-98 | The steps of a node-time schedule, run in a row from any rest, end in exactly the state the object takes: the old timer cancelled, the slot replaced, a timer of its own. |
| `Timers.MessageTimeAlone` | packages/rosbag2_dynamic_recorder/src/scheduler.cpp:70-104 | So do those of a message-time schedule, the old timer cancelled as well. |
| `Timers.TimerAlone` | packages/rosbag2_dynamic_recorder/src/scheduler.cpp:87-96 | So do those of a timer. |
| `Timers.ClearAlone` | packages/rosbag2_dynamic_recorder/src/scheduler.cpp:141-152 | So do those of a clear. |
| `Timers.MessageAlone` | packages/rosbag2_dynamic_recorder/src/scheduler.cpp:118-139 | So do those of a message. |
| `Timers.FiresExactlyTheDue` | packages/rosbag2_dynamic_recorder/src/scheduler.cpp:31-44 | Under every interleaving a message that takes the lock fires exactly the live schedules due on it: on a message's time, on its topic or any, the stamp on the schedule's clock supplied and not before its time. |
| `Timers.TakesExactlyTheDue` | packages/rosbag2_dynamic_recorder/src/scheduler.cpp:118-139 | So the object, at rest, empties exactly the slots due on a message, fast path included. |
| `Timers.SchedulesExactly` | packages/rosbag2_dynamic_recorder/src/scheduler.cpp:70-104 | A schedule takes the place of whatever its kind had pending, and touches no other kind. |
| `Recorder.DynamicRecorder.SubscribedTopics` | packages/rosbag2_dynamic_recorder/src/dynamic_recorder.cpp:249-259 | The sorted list of subscribed topics. |
| `Recorder.DynamicRecorder.SubscribeBatch` | packages/rosbag2_dynamic_recorder/src/dynamic_recorder.cpp:266-307 | The loop, with the type looked up before the subscription, is the fold `SubscribeBatch`. |
| `Recorder.DynamicRecorder.ReplaceTopics` | packages/rosbag2_dynamic_recorder/src/dynamic_recorder.cpp:309-321 | Drop what is not desired, in sorted order, then subscribe the desired. |
| `Recorder.DynamicRecorder.RecordDeferredEvents` | packages/rosbag2_dynamic_recorder/src/recorder_events.cpp:182-196 | The queued split events are taken out and written in order. |
| `Recorder.DynamicRecorder.Record` | packages/rosbag2_dynamic_recorder/src/dynamic_recorder.cpp:186-228 | record() takes recorder, loss books and storage path where `RecordAll` says, path and books first. |
| `Renewal.UnusedBagPath` | packages/rosbag2_dynamic_recorder/src/bag.cpp:42-57 | The loop finds the name itself if it is free, else the first free one with a number after it, else none. |
| `Renewal.RecordAllIsRecord` | packages/rosbag2_dynamic_recorder/src/dynamic_recorder.cpp:186-228 | To the recorder's own state it is the record of every run, which gets a bag open if and only if none was, a path was free and the writer opened it. |
| `Renewal.RefusedKeepsExactly` | packages/rosbag2_dynamic_recorder/src/dynamic_recorder.cpp:186-208 | A refused record leaves the recorder as it was, and books and path too if and only if a bag was open, no path was free, or no loss was counted and the path found is the one in use. |
| `Renewal.FailedOpenForgets` | packages/rosbag2_dynamic_recorder/src/dynamic_recorder.cpp:199-208 | A record that fails at the writer leaves no loss counted for any topic and the path it went for. |
| `Renewal.BegunAfresh` | packages/rosbag2_dynamic_recorder/src/dynamic_recorder.cpp:192-203 | A record that gets as far as the writer has no loss counted, and its path is the one asked for, or the one in use if none was, when that is free, and else the first free one of those with a number after it. |
| `Renewal.DigitsRead` | packages/rosbag2_dynamic_recorder/src/bag.cpp:50-54 | The number after it is written in decimal. |
| `Renewal.TotalsAreForgotten` | packages/rosbag2_dynamic_recorder/src/dynamic_recorder.cpp:199-208 | A concrete one: three missed messages are forgotten and the path is replaced. |
| `RecorderInvariants.SubscribeKeeps` | packages/rosbag2_dynamic_recorder/src/dynamic_recorder.cpp:323-394 | Whatever an attempt meets, it keeps the invariant and the bag in hand; and the log goes on telling each signal truly, unless the attempt's event is that signal's own and is lost. |
| `RecorderInvariants.PauseEventKeeps` | packages/rosbag2_dynamic_recorder/src/dynamic_recorder.cpp:230-247 | So does a pause or a resume. |
| `RecorderRuns.SplitEventKeeps` | packages/rosbag2_dynamic_recorder/src/recorder_events.cpp:150-196 | A split event written late, with the stamp it was queued with, disturbs no signal, stored or lost. |
| `RecorderRuns.StopKeeps` | packages/rosbag2_dynamic_recorder/src/dynamic_recorder.cpp:161-184 | After a stop the bag is closed and the log tells each signal as truly as before; the selection is saved unless the bag was closed already, and then the saved one stays. |
| `RecorderRuns.OpenBagTold` | packages/rosbag2_dynamic_recorder/src/recorder_events.cpp:114-119 | From its first moment a new bag tells each signal truly, opened paused or not. |
| `RecorderRuns.OpenedKeeps` | packages/rosbag2_dynamic_recorder/src/dynamic_recorder.cpp:209-228 | A bag opened by record() is open, has no self-stop event and both flags clear, and tells each signal truly after its topics are restored. |
| `RecorderRuns.GuardKeeps` | packages/rosbag2_dynamic_recorder/src/recorder_events.cpp:198-248 | A guard that emits, marks and stops keeps the invariant and at most one self-stop event in the bag, for the reason the flag gives. |
| `RecorderRuns.EveryCommand` | packages/rosbag2_dynamic_recorder/src/dynamic_recorder.cpp:161-471 | What every command keeps: the invariant, the self-stop bookkeeping, channels within a bag, the saved selection while stopped, and a log that tells each recorded signal truly. |
| `RecorderRuns.RunAdvances` | packages/rosbag2_dynamic_recorder/src/dynamic_recorder.cpp:161-471 | The same over every run of commands. |
| `Promises.EveryCommandFollows` | packages/rosbag2_dynamic_recorder/src/dynamic_recorder.cpp:135-471 | In every reachable state every command is a step of a machine of what a user sees: open, paused, why it stopped, what it records, what it will restore, what is scheduled. So a pause pauses, a resume, scheduled or not, resumes when due and only then, a guard that trips stops, and a stop drops everything but a scheduled record. |
| `Promises.JudgeIsAnswer` | packages/rosbag2_dynamic_recorder/src/recorder_services.cpp:304-352 | A request to resume or split is met at once for time zero or a node time that has passed, refused for an unknown mode or an unrecorded topic, and scheduled otherwise, on the clock of its mode. |
| `Promises.LiveTimerIsForItsSchedule` | packages/rosbag2_dynamic_recorder/src/scheduler.cpp:87-96 | In every reachable state of the recorder a kind has a live timer if and only if a node-time schedule of it is pending, and the timer was made for that very schedule. |
| `Journal.EveryCommandJournaled` | packages/rosbag2_dynamic_recorder/src/recorder_events.cpp:77-196 | In every reachable state a command that neither changes the selection nor opens a bag adds to the log exactly: a pause or resume if it changed anything, the reason if a guard stops, the split events waiting when they are written; each only if recorded and taken by the writer. And it leaves exactly the split events due waiting, one for each new file. |
| `Journal.EverySelectionJournaled` | packages/rosbag2_dynamic_recorder/src/dynamic_recorder.cpp:266-413 | One that changes the selection adds only subscription events, none if they are not recorded; one that opens a bag begins its log with whether it opens paused. |
| `Journal.BagSizeGuardStops` | packages/rosbag2_dynamic_recorder/src/recorder_events.cpp:226-248 | A size guard that finds the bag too big closes it and sets its flag, and the log ends with the reason, if recorded and taken, and the split events that were waiting. |
| `Journal.DiskGuardStops` | packages/rosbag2_dynamic_recorder/src/recorder_events.cpp:198-224 | So does the disk guard, whether or not its event is recorded or taken. |
| `Journal.SplitsExactly` | packages/rosbag2_dynamic_recorder/src/recorder_services.cpp:299-351 | A request, a timer or a message asks the writer for a new file once when it is to split the bag, and not otherwise. |
| `Journal.SnapshotsExactly` | packages/rosbag2_dynamic_recorder/src/bag.cpp:358-371 | A snapshot reaches the writer if and only if a bag is open. |
| `Reading.LatestIsOwn` | packages/dynrec/dynrec/bag.py:263-270 | Call an instant contested if the bag holds a message on the signal's event channel with no own event after it that toggles the signal just then. At any other instant the event that decides the signal is the same among all events read back as among the recorder's own. |
| `Reading.ContestedMeans` | packages/dynrec/dynrec/bag.py:246-270 | An instant is contested only if there is a message on the signal's channel, and, unless the recorder stored a toggle just then, whenever there is one. |
| `Delivery.RunHears` | packages/rosbag2_dynamic_recorder/src/dynamic_recorder.cpp:452-470 | In every run the bag holds no message but those a message command delivered while the topic was subscribed and the recorder was not paused, or was resumed by that very message. |
| `Recording.MessageIsRecordedExactly` | packages/rosbag2_dynamic_recorder/src/dynamic_recorder.cpp:452-470 | A delivered message is handed to the writer if and only if a bag is open, its topic is subscribed, and the recorder is not paused or a pending resume is due on it. |
| `Recording.RunHoldsExactly` | packages/rosbag2_dynamic_recorder/src/dynamic_recorder.cpp:423-471 | In every run the bag holds, in order, exactly the messages so delivered since it was opened and taken by the writer. |
| `Explanation.BagExplainsItself` | packages/rosbag2_dynamic_recorder/src/recorder_events.cpp:92-119 | In every run of a bag with the signal's events recorded and stored, at each instant before the end that is not contested, the reader's windows cover it if and only if the topic was subscribed, or the recorder paused, at that instant. |
| `Explanation.ExplainsUnlessContested` | packages/dynrec/dynrec/bag.py:246-270 | That condition is exact, at every instant of such a bag before the end: the reader is right whatever recorded messages say if and only if the instant is not contested. |
| `Explanation.NoneDelivered` | packages/rosbag2_dynamic_recorder/src/topic_selection.cpp:65-79 | A run that delivers no message on a channel named like the signal's stream leaves none in the bag, and so contests no instant. |
| `Misled.MessageContests` | packages/rosbag2_dynamic_recorder/src/dynamic_recorder.cpp:452-470 | A message recorded on a signal's channel contests every instant. |
| `Misled.ReaderIsMisled` | packages/rosbag2_dynamic_recorder/src/recorder_events.cpp:38-46 | A recorder launched to record its own pause events reaches, with every pause event stored, a bag a reader gets wrong. |
| `Explanation.ReaderSeesTheRecorder` | packages/dynrec/dynrec/bag.py:173-186 | Whatever state the recorder was in while its clock ran, the windows rebuilt at any later time from that bag say exactly that state at every instant not contested. |
| `Described.ReportIsTrue` | packages/dynrec/dynrec/bag.py:236-326 | What describe reports of a bag whose signals' events were recorded and stored, unimitated: the pauses are exactly the instants of the bag at which the recorder was paused; a channel is measured by events if and only if its topic was subscribed for at least one instant of the bag before the end, and then recorded seconds count the instants it was subscribed and not paused, active seconds those within the span of its messages; the gaps are those that no single stretch of true pause covers by more than half; a stop is reported if and only if the recorder wrote one into this bag. |
| `SelfStop.StopsAreLogged` | packages/rosbag2_dynamic_recorder/src/recorder_events.cpp:198-248 | In every run whose guards' events are recorded and stored, the recorder is stopped for a reason if and only if the bag ends with the event that says so. |
| `SelfStop.ReportedStopIsTheReason` | packages/dynrec/dynrec/bag.py:316-326 | So the report of an unimitated bag names a stop if and only if it is why the recorder stopped. |
| `Explanation.EveryCommandGrows` | packages/rosbag2_dynamic_recorder/src/recorder_events.cpp:77-82 | The history of what the recorder was doing is only ever appended to, at stamps not before the clock. |
| `Selections.SubscribeOutcome` | packages/rosbag2_dynamic_recorder/src/dynamic_recorder.cpp:323-394 | An attempt adds the topic if and only if it is new, its name and subscription work, and its channel exists with the same type or can be created; nothing else changes but the log. |
| `Selections.BatchIsExact` | packages/rosbag2_dynamic_recorder/src/dynamic_recorder.cpp:266-307 | A batch keeps every subscription there was, the very same object, and adds each new topic once. |
| `Selections.BatchPartitions` | packages/rosbag2_dynamic_recorder/src/dynamic_recorder.cpp:266-307 | Subscribed and unavailable together are the request, as a multiset, duplicates included. |
| `Selections.BatchAnnounces` | packages/rosbag2_dynamic_recorder/src/dynamic_recorder.cpp:323-394 | The log gains one SUBSCRIBED per added topic, in order, and no other subscription event. |
| `Selections.BatchSubscribes` | packages/rosbag2_dynamic_recorder/src/dynamic_recorder.cpp:266-307 | After a batch a topic is subscribed if and only if it was before or some request gets it, judged from the state before the batch, the graph and the attempts: its type is found, name and subscription work, and its channel, had before or left by an earlier attempt or made by an earlier announcement, has that type, or can be made. |
| `Types.AddedWithItsType` | packages/rosbag2_dynamic_recorder/src/dynamic_recorder.cpp:273-289 | Every topic a batch adds carries the very type its request named or, if it named none, the one type the topic has on the graph. |
| `Types.ReplyIsExact` | packages/rosbag2_dynamic_recorder/src/dynamic_recorder.cpp:266-307 | The reply lists unavailable, in order, exactly the requests without a type - none named, and the topic not on the graph with exactly one - and those neither subscribed before nor got; subscribed the others; and added those that add their topic. |
| `Selections.KeptButUnavailable` | packages/rosbag2_dynamic_recorder/src/dynamic_recorder.cpp:276-291 | A topic subscribed all along is listed unavailable if and only if no type could be found for one of its requests, and stays subscribed regardless. |
| `Selections.ReplaceIsExact` | packages/rosbag2_dynamic_recorder/src/dynamic_recorder.cpp:309-321 | Replacement ends with (old and desired) plus the added; kept topics keep their subscription and get no event, dropped ones are exactly old minus desired with one UNSUBSCRIBED each, added ones get one SUBSCRIBED each. |
| `Lifecycle.BetweenOperations` | packages/rosbag2_dynamic_recorder/src/dynamic_recorder.cpp:161-184 | In every reachable state a closed bag has no subscriptions and no pending resume or split; while open every subscription has a channel of its own type. |
| `Lifecycle.SelfStopsOnce` | packages/rosbag2_dynamic_recorder/src/recorder_events.cpp:198-248 | In every reachable state at most one self-stop flag is set, a set flag means stopped, and a bag holds at most one self-stop event, for the reason the flag gives. |
| `Lifecycle.GuardSpeaksOnce` | packages/rosbag2_dynamic_recorder/src/dynamic_recorder.cpp:93-98 | When both guards trip on one tick the first explains and stops and the second changes nothing. |
| `Lifecycle.ChannelsOnlyGrow` | packages/rosbag2_dynamic_recorder/src/bag.cpp:190-222 | Over any run within one bag channels are only added and keep their types, across unsubscribe, resubscribe and replacement. |
| `Lifecycle.SelectionStaysSaved` | packages/rosbag2_dynamic_recorder/src/dynamic_recorder.cpp:161-207 | While stopped nothing changes the saved selection: not repeated stops, not failed records. |
| `Lifecycle.ClosingSaves` | packages/rosbag2_dynamic_recorder/src/dynamic_recorder.cpp:161-184 | Whatever command closes the bag, a stop or a guard that trips, saves the sorted list of what was subscribed when it was given. |
| `Lifecycle.StopRecordRoundTrip` | packages/rosbag2_dynamic_recorder/src/dynamic_recorder.cpp:161-228 | After any command that closes the bag, a self-stop included, and any stopped stretch, the record that succeeds subscribes exactly the topics of the old selection that can be subscribed then, read off the graph, the attempts and, for the recorder's own event topics, whether an event before made their channel. |
| `Lifecycle.LaunchRecords` | packages/rosbag2_dynamic_recorder/src/dynamic_recorder.cpp:135-159 | A launch opens the bag if and only if the writer can, paused as configured, and records exactly those of the configured topics that can be subscribed on it. |
| `CleanCut.FiringIsNoMessage` | packages/rosbag2_dynamic_recorder/src/dynamic_recorder.cpp:452-463 | What a message fires hands the writer no message, and a due resume ends the pause before the pause is asked about. |
| `CleanCut.ResumeCutsCleanly` | packages/rosbag2_dynamic_recorder/src/dynamic_recorder.cpp:452-470 | While paused with a message-time resume pending, the messages handed to the bag are exactly those from the first due one on. |
| `CleanCut.ScheduledResumeCutsCleanly` | packages/rosbag2_dynamic_recorder/src/recorder_services.cpp:334-338 | So they are once the request is accepted, and the recorder stays paused if and only if no message was due. |
| `Profiles.ActiveProfileIsTrue` | packages/rosbag2_dynamic_recorder/src/recorder_services.cpp:425-433 | The active profile is the first usable one declared whose topics are, as a set, those subscribed; none if there is none. |
| `TopicSelection.SelectTopics` | packages/rosbag2_dynamic_recorder/src/topic_selection.cpp:25-63 | The two loops compute `Choose`, refusing in the source's order, and refuse if and only if the types are misaligned or a pattern does not compile. |
| `TopicSelection.AddMatching` | packages/rosbag2_dynamic_recorder/src/topic_selection.cpp:39-44 | The include loop appends the matching candidates not already named, with no type. |
| `TopicSelection.DropBarred` | packages/rosbag2_dynamic_recorder/src/topic_selection.cpp:46-56 | The exclude loop drops names and their types together. |
| `TopicSelection.ChoiceIsExact` | packages/rosbag2_dynamic_recorder/src/topic_selection.cpp:25-63 | A topic is chosen if and only if it is named or found and not excluded, and each choice carries the type it was given with. |
| `TopicSelection.ChoiceInOrder` | packages/rosbag2_dynamic_recorder/src/topic_selection.cpp:25-63 | The named topics come first, in the order and as often as named, then the found ones in the order of the graph. |
| `TopicSelection.PatternCandidates` | packages/rosbag2_dynamic_recorder/src/topic_selection.cpp:65-79 | The candidates are the graph's topics, sorted and distinct, less the recorder's own and the hidden ones. |
| `TopicSelection.FoundOnce` | packages/rosbag2_dynamic_recorder/src/topic_selection.cpp:39-44 | A pattern never adds a topic twice. |
| `Requests.FailsExactly` | packages/rosbag2_dynamic_recorder/src/recorder_services.cpp:58-66 | A batch is answered with an error if and only if it asked for something and none of it is served: its type found, and the topic subscribed already or got, judged as for `BatchSubscribes`. |
| `Requests.KeptFailsExactly` | packages/rosbag2_dynamic_recorder/src/dynamic_recorder.cpp:276-291 | A request for topics all subscribed already is answered with an error if and only if it is not empty and no type is found for any of them. |
| `Requests.RefusedYetKept` | packages/rosbag2_dynamic_recorder/src/recorder_services.cpp:174-191 | So is a replacement that only keeps topics; and whatever the answer, each stays recorded by the very subscription it had. |
| `Requests.SetTopicsIsExact` | packages/rosbag2_dynamic_recorder/src/recorder_services.cpp:174-191 | After set_topics nothing unwanted is subscribed, what was subscribed and wanted still is, exactly the unwanted are dropped, and what is wanted and missing is reported unavailable. |

## Left out

- Regular expressions: a pattern is absent, malformed, or an arbitrary search predicate.
- rosbag2's writer, MCAP, DDS, QoS adaptation and rclcpp executors: each call into them answers or fails as a
  parameter says.
- Reading of bags: topic types, deserialisation and the event constructors in bag.py; an event is already parsed.
- Floating-point rounding in bag.py: times are integer nanoseconds, and half of a gap is compared by doubling.
- C++ weak memory ordering: steps are sequentially consistent.
- The time outs of `try_lock_for`: a waiting thread may be given the free lock or not, at every poll.
- Interleaving of message callbacks with service handlers inside the recorder: `RecorderState` runs commands one
  at a time with nothing staged; the concurrency is proved at the level of the bag and of the scheduler.
- Full delivery of deferred split events: a rollover during the close can queue one after the drain.
- Node names, file names, reasons and topic types carried by events: the reader's windows do not use them.
- The split counter. Which paths exist is an input, and outside `Renewal` a path is free or it is not.
- Waiting for /clock: a recorder that waits has only its paused flag, which is a parameter of `Launch`.
- The storage guard's measurements: a verdict is an input.
- Loss books meet the recorder's state only in `Renewal`; the storage guard's own reset in record() is not modelled.
  `LossAccounting::reset` is one step in `Losses`, while in the source its atomics and its maps are cleared one
  after the other.
- `totals()`, `topic_totals()`, `build_status()` and the other status fields: they copy state out.
- Report.Describe: says nothing of message types, of the wording of warnings and of the formatting of the summary.
- Report.Warn: leaves out the wording.
- The client, user interface and command line.
- Timings and contention diagnostics.
- CleanCut.FiringIsNoMessage: starts after the sequence number is noted, and the message's stamps are given.
- Explanation.BagExplainsItself: at instants not contested only (`ExplainsUnlessContested` shows why). It speaks of
  instants from the bag's first emitted event on; between the writer's opening and the initial pause event of a bag
  opened while paused nothing is subscribed yet.
