# Verified model of the external-subagent core

External-subagent runs coding agents as child processes of a daemon. This project
models the parts of it that keep state over time and states what they promise
over whole runs:

- the wait text stream of a task, an 8 KiB window that many consumers drain and
  that survives the replacement of its tracker (`WaitText`, `Utf8`);
- the activity tracker around it: a mode-gated parser, a bounded sample queue and
  the 60-second window (`ActivityParser`, `ActivityContract`, `ActivityTracker`,
  `ActivityFrames`, `ActivityVocabulary`, `ActivityWindow`, `PassiveActivityTracker`);
- the observation history of a task: tool calls under identity dedup, bounded
  recent calls, reasoning, and the merge of two claims (`ToolHistory`,
  `ToolOverlap`, `Reasoning`, `Arguments`, `Json`, `Observation`, `ObservationFrames`,
  `ObservationMerge`, `ObservationCoverage`, `Snapshot`, `Listings`, `ObservationState`);
- the detached spawn protocol between daemon, parent, helper and runtime
  (`Detached`);
- the driver: single-flight stop, identity-checked signalling, request
  correlation and the bounded line reader (`StopGate`, `ProcessGroups`,
  `GroupLineage`, `Correlator`, `LineReader`);
- publication and the proof that a process group is gone (`Publisher`,
  `RuntimeOwner`, `RuntimeReports`, `LifecycleSink`, `TaskLifecycle`), and the message
  table (`Messages`).

`dafny verify dfyconfig.toml` checks the whole project.

## How it is put together

Every component has a simple reference that forgets nothing: a mailbox for the
text stream, the log of all calls for the tool history, the whole reasoning stream
for its tail, the plain split for the line reader, the exact sum for the window.
The bounded, incremental code is proved to show what the reference shows, and laws
about merging are laws about concatenation.

Concurrent parts are state machines: a step is one critical section or one system
call, a run is any sequence of steps, and the theorems are about all runs. The
process table may change in any way between two system calls. In `ProcessGroups`
the n-th action of a stop sees the n-th table of an arbitrary sequence; `Detached`
assumes only that a pid is not reused while its process is unreaped, that a
process is reaped by its parent or, once orphaned, by the system, and that a write
to a pipe without readers fails; `GroupLineage` assumes that only children of its
members join an inhabited group.

The proof that a process group is gone runs through four components. A stop or a
look carries the log of its system calls, and all that is known of it is what
`ProcessGroups` proves of every stop. `RuntimeOwner` lets any number of callers go
through the gate of `StopGate`, where one of them performs the stop and the others
share its result, and publishes what they and the event pump make of it.
`TaskLifecycle` hands the records to the sink and the terminal to the finish. The
theorem at the end speaks of a time and of the process table at that time.

Safety has a converse in each protocol: what happened is reported
(`RuntimeReports`), a failed stop is tried again (`StopGate`), a healthy spawn
starts (`Detached`), a response is returned (`Correlator`), and what a frame says
is recorded (`ObservationFrames`, `ActivityFrames`). These are stated by what can
be seen from outside: records, steps taken, and the members of a frame.

Classes hold the fields the program updates in place, and each of their methods is
proved against the function that specifies it.

Clocks, map iteration orders, timeouts, store answers and kernel answers are
parameters. Deadlines are numbers of rounds. The `u64` counters are natural
numbers, except in the window sums, where saturation is written out and proved not
to happen. Strings are sequences of Unicode characters with their UTF-8 widths
(section 3 of RFC 3629); comparing them by code point is comparing their bytes.
JSON objects are sequences of members. The program keeps them as maps sorted by key,
each key once, so there is one sequence per object and comparing the sequences is
comparing the maps.

## Where the code and its comments disagree

- Beginning a request under an id that is pending is documented to fail closed. It
  replaces the registered sender first, so the earlier caller is cut off and the
  response is lost (`Correlator.ReuseLosesResponse`). Beginning is clean exactly when
  the id is not pending (`Correlator.BeginsCleanlyIff`). That alone does not make a
  caller safe from a late answer to an older request (`Correlator.ReuseMisdelivers`);
  it is safe exactly when no such answer is due (`Correlator.OwnAnswerIff`).

## Properties with a condition

- The merge of two text windows gives the last window of the whole stream, except,
  as its comment says, once the incoming tracker has rolled. The exception is
  narrower: it needs room in the rolled window for one more character
  (`WaitText.MergeIsCanonicalIff`, `WaitText.RolledMergeIsNotCanonical`).
- A complete history has counted every call delivered unless a launch reuses a
  source id (`ObservationCoverage.CompleteMeansCounted`, `ReuseHidesCall`).
- Merging two claims that report the same calls is one run of both unless a report is
  forgotten (`ToolOverlap.OverlapAgreesIff`, `OverlapLosesReport`).
- A group signal reaches the runtime's own processes unless its group died out and
  its number was taken over (`GroupLineage.SignalReaches`, `StopMeetsStranger`).

## Model

| member | source | states |
|---|---|---|
| `WaitText.ExactlyOnceDelivery` | crates/external-daemon/src/activity_tracker.rs:313-346 | over every interleaving of appends, takes, peeks, launches and tracker replacements, a take or peek that is not flagged returns exactly the text owed since the last take; it is flagged exactly when more bytes are owed than the window holds; slices start on character boundaries; the texts handed over plus the text owed are the whole stream |
| `WaitText.MailboxIsExactlyOnce` | crates/external-daemon/src/activity_tracker.rs:304-317 | the reference mailbox hands over the stream in order, each character once |
| `WaitText.PeekIsOwed` | crates/external-daemon/src/activity_tracker.rs:330-346 | for any tracker that follows a stream: the slice is on a boundary, and flagged iff the owed bytes outnumber the window |
| `WaitText.AppendTracks` | crates/external-daemon/src/activity_tracker.rs:496-511 | appending keeps the tracker on the stream, whatever was delivered before |
| `WaitText.InheritTracks` | crates/external-daemon/src/activity_tracker.rs:367-397 | a replaced tracker follows the old stream followed by the new one, even when the incoming tracker had rolled |
| `WaitText.WindowIgnoresDeltaBoundaries` | crates/external-daemon/src/activity_tracker.rs:496-511 | without a rolled merge the window is the longest character-aligned suffix of at most 8192 bytes, however the text was cut into deltas |
| `WaitText.FlagIsSticky` | crates/external-daemon/src/activity_tracker.rs:502-509 | the sticky flag says whether the stream of the tracker ever outgrew the window |
| `WaitText.MergeIsCanonicalIff` | crates/external-daemon/src/activity_tracker.rs:388-397 | a merge keeps that window exactly when the incoming tracker has not rolled, or its window leaves no room for the last old character |
| `WaitText.RolledMergeIsNotCanonical` | crates/external-daemon/src/activity_tracker.rs:354-358 | an input for the exception: after one letter and then one three-byte character more than the cap holds, the merged window is the letter and all but one of the characters, which is not the last window of the stream |
| `WaitText.RolledMergeIsFlagged` | crates/external-daemon/src/activity_tracker.rs:353-359 | after a merge with a rolled tracker the next take is flagged |
| `WaitText.InheritIsLatest` | crates/external-daemon/src/activity_tracker.rs:399-404 | the merged stream was last updated when the later of its parts was |
| `Utf8.TrimHead` | crates/external-daemon/src/activity_tracker.rs:502-507 | the trim loop stops at the longest suffix that fits and starts on a character boundary |
| `Utf8.LongestSuffixIsLongest` | crates/external-daemon/src/activity_tracker.rs:502-507 | no longer suffix fits the cap |
| `ActivityParser.GateSilencesForeign` | crates/external-daemon/src/activity_parser.rs:283-296 | a strict mode makes silence of exactly the foreign tool frames and reads every other frame as the mixed mode does |
| `ActivityParser.ParsedIsWellFormed` | crates/external-daemon/src/activity_parser.rs:472-511 | counts are between 1 and 1024, a sampled frame is at most a tool phase, a count-only adapter starts no tool, descriptor turns contain no NUL |
| `ActivityContract.CountRoundTrip` | crates/external-contract/src/activity.rs:46-66 | a count event is read back with its weight and id iff the count is in 1..=1024 and the id is usable, and otherwise stands for nothing |
| `ActivityContract.StartedRoundTrip` | crates/external-contract/src/activity.rs:73-92 | a started event is read back as one call of the named kind |
| `ActivityContract.ResultRoundTrip` | crates/external-contract/src/activity.rs:96-103 | a result event is read back as the completion of the call |
| `ActivityFrames.EventIsRead` | crates/external-daemon/src/activity_parser.rs:258-265 | in every mode, an event streams text, brings a final response or begins a turn exactly if its members say so, told by member names and strings alone |
| `ActivityVocabulary.ParseIsTabled` | crates/external-daemon/src/activity_parser.rs:200-511 | for every event and mode the parser agrees, in every field of its result, with word tables that first say what form of event a message is and then what each field of that form means |
| `ActivityVocabulary.ModeIsTabled` | crates/external-daemon/src/activity_tracker.rs:64-78 | which adapter speaks in counts, which in detail, and that anyone else may mix |
| `ActivityTracker.RunQueued` | crates/external-daemon/src/activity_tracker.rs:108-140 | over every trace the order queue lists the sample keys once each and holds at most 65536 |
| `ActivityTracker.StrictRefinesMixed` | crates/external-daemon/src/activity_tracker.rs:84-216 | on every trace a strict tracker ends in the state of a mixed tracker run on the trace without the foreign tool frames: samples, eviction order, active tools, requests, text and observation history |
| `ActivityTracker.CountOnlyHasNoActiveTool` | crates/external-daemon/src/activity_tracker.rs:186-202 | a count-only tracker never has an active tool |
| `ActivityTracker.ActiveMeansStartedLast` | crates/external-daemon/src/activity_tracker.rs:169-214 | a tool call is active iff the last event that concerns it started it, over every trace |
| `ActivityTracker.RequestMeansStartedLast` | crates/external-daemon/src/activity_tracker.rs:170-185 | a model request is under way iff the last event that concerns it started it |
| `ActivityFrames.ActiveSinceStarted` | crates/external-daemon/src/activity_tracker.rs:169-214 | a tool call is active as the kind and since the time of the event that started it, and a model request since the event that started it, over every trace |
| `ActivityFrames.ClockIsTold` | crates/external-daemon/src/activity_tracker.rs:142-148 | the delta clock shows the last delta taken in, or the last model request that began since |
| `ActivityFrames.DegradedIff` | crates/external-daemon/src/activity_tracker.rs:103-107 | a tracker is degraded exactly once it met telemetry it does not know |
| `ActivityTracker.RedeliveryChangesNothing` | crates/external-daemon/src/activity_tracker.rs:108-163 | redelivering an event with a retained sample changes neither window nor text, model requests nor delta clock, unless the session confirms a telemetry sample |
| `ActivityTracker.ConfirmationReplaces` | crates/external-daemon/src/activity_tracker.rs:111-130 | a session frame takes the place of the telemetry sample it confirms, in its old place of the queue, once |
| `ActivityTracker.DeliveredTwice` | crates/external-daemon/src/activity_tracker.rs:108-163 | delivering a sampled event twice is delivering it once |
| `ActivityTracker.TrackerHistoryIsReachable` | crates/external-daemon/src/activity_tracker.rs:84-101 | the observation history of a tracker is always a reachable state of the observation model |
| `ActivityTracker.TrackerTextTracks` | crates/external-daemon/src/activity_tracker.rs:149-161 | the text window and cursors of a tracker are those of the stream of the text it admitted, over every trace |
| `ActivityFrames.SpokenIsTracked` | crates/external-daemon/src/activity_tracker.rs:149-161 | the text window of a tracker is that of the text its events streamed, over every trace |
| `ActivityFrames.TerminalIsTold` | crates/external-daemon/src/activity_tracker.rs:149-161 | over every trace the terminal text is that of the latest turn: nothing when it begins, then what is streamed, and its final response once that arrives |
| `ActivityTracker.SettledTextStays` | crates/external-daemon/src/activity_tracker.rs:149-161 | after a boundary brought the final text of a turn, streamed text does not change it until the next turn |
| `ActivityWindow.WindowAt` | crates/external-daemon/src/activity_tracker.rs:222-257 | the saturating window sums, taken in any map order, are the exact sums over the queue; started = read + bash + other; no sum exceeds 65536 * 1024 |
| `ActivityWindow.TotalIsOrderFree` | crates/external-daemon/src/activity_tracker.rs:225-257 | the sums do not depend on the order of the map |
| `ActivityWindow.FiguresCountTheirKind` | crates/external-daemon/src/activity_tracker.rs:229-256 | each figure of the window counts the calls or samples it is named after that are at most 60 seconds old |
| `PassiveActivityTracker.PassiveActivityTracker.ForLaunch` | crates/external-daemon/src/activity_tracker.rs:64-78 | a fresh tracker with the mode of its adapter |
| `PassiveActivityTracker.PassiveActivityTracker.ObserveAt` | crates/external-daemon/src/activity_tracker.rs:84-216 | the whole new state after one event |
| `PassiveActivityTracker.PassiveActivityTracker.Admit` | crates/external-daemon/src/activity_tracker.rs:108-140 | admission, Telemetry to Session replacement and eviction |
| `PassiveActivityTracker.PassiveActivityTracker.EvictOldest` | crates/external-daemon/src/activity_tracker.rs:136-140 | the eviction loop removes the oldest samples down to the bound |
| `PassiveActivityTracker.PassiveActivityTracker.ApplyTransition` | crates/external-daemon/src/activity_tracker.rs:169-214 | what each transition does to requests, tools and terminal text |
| `PassiveActivityTracker.PassiveActivityTracker.AppendLatestText` | crates/external-daemon/src/activity_tracker.rs:496-511 | the new window, cursors, flag and terminal text |
| `PassiveActivityTracker.PassiveActivityTracker.TakeWaitTail` | crates/external-daemon/src/activity_tracker.rs:313-318 | returns the undelivered tail and moves the delivery cursor to the end |
| `PassiveActivityTracker.PassiveActivityTracker.PeekWaitTail` | crates/external-daemon/src/activity_tracker.rs:325-346 | returns the undelivered tail and changes nothing |
| `PassiveActivityTracker.PassiveActivityTracker.InheritWaitText` | crates/external-daemon/src/activity_tracker.rs:367-409 | the merged stream state, and the merged observation history |
| `ToolHistory.RecordLogs` | crates/external-daemon/src/observation.rs:369-430 | recording a call in the bounded history is logging it: refine the entry while it is shown, append it while there is room, otherwise leave the log alone |
| `ToolHistory.SeenAt` | crates/external-daemon/src/observation.rs:414-417 | the n-th admitted call has number n and is known under its identity |
| `ToolHistory.GroupAt` | crates/external-daemon/src/observation.rs:416-428 | every tool has its exact count, its newest number and its newest five calls |
| `ToolHistory.RecentAreNewest` | crates/external-daemon/src/observation.rs:420-428 | recent calls descend, and a counted call is missing only if five newer ones are shown |
| `ToolHistory.CountsAddUp` | crates/external-daemon/src/observation.rs:369-430 | the counts of the tools add up to the calls admitted, which is the last number given out |
| `ToolHistory.NumbersAreExact` | crates/external-daemon/src/observation.rs:414-417 | numbers are exactly 1..n, each once |
| `ToolHistory.IdentityRoundTrip` | crates/external-daemon/src/observation.rs:465-469 | splitting an identity at its first NUL gives back turn and call id |
| `ToolHistory.ReceiptOrderIsLog` | crates/external-daemon/src/observation.rs:453-458 | sorting the map of seen calls by number gives the order of the log |
| `ToolHistory.ReplayLogs` | crates/external-daemon/src/observation.rs:459-495 | replaying a history onto a base is replaying its log: known calls are skipped, others logged with what is remembered of them, in full generality |
| `ToolHistory.ForgettingIsInvisible` | crates/external-daemon/src/observation.rs:474-486 | losing the arguments of calls outside the newest five does not change the merged history |
| `ToolHistory.MergeIsOneRun` | crates/external-daemon/src/observation.rs:453-495 | for disjoint identities within the caps, merging gives in every field what recording the calls one by one gives |
| `ToolHistory.MergeKeepsBase` | crates/external-daemon/src/observation.rs:432-440 | a merge only appends to the log of the base, so what the base captured wins |
| `ToolOverlap.OverlapAgreesIff` | crates/external-daemon/src/observation.rs:453-495 | for any two claims within the caps, whatever calls they share: merging gives in every field what recording one by one gives iff, for every call the merge shows, no report improved on what the base knew of it, or, if the base did not know it, the new claim still shows it or nothing was said of it |
| `ToolOverlap.OneCallAgreesIff` | crates/external-daemon/src/observation.rs:460-486 | the same, call by call |
| `ToolOverlap.ShownHoldsReports` | crates/external-daemon/src/observation.rs:384-400 | of a call that is shown, one run knows exactly what all reports of it add up to |
| `ToolOverlap.OverlapLosesReport` | crates/external-daemon/src/observation.rs:460-464 | an input on which the two differ: a better report of a call the base knows is skipped |
| `ToolHistory.KnownArgumentsSurvive` | crates/external-daemon/src/observation.rs:384-400 | known arguments survive any number of updates that carry none |
| `ToolHistory.ReplayRefusesNone` | crates/external-daemon/src/observation.rs:406-413 | and nothing is refused on the way |
| `ToolHistory.ReplaySeen` | crates/external-daemon/src/observation.rs:453-495 | a replay takes in nothing but the listed calls, and all of them unless it refuses one |
| `Reasoning.ObserveShows` | crates/external-daemon/src/observation.rs:260-281 | after any delta the text shown is the last 200 characters of the whole stream, and truncated is set iff the stream is longer |
| `Reasoning.MergeShows` | crates/external-daemon/src/observation.rs:443-448 | the same after merges, whichever side has rolled its 64 KiB buffer |
| `Reasoning.RollsIff` | crates/external-daemon/src/observation.rs:267-276 | the buffer overflows exactly when the whole stream no longer fits |
| `Observation.ReachableStates` | crates/external-daemon/src/observation.rs:217-518 | in every state reached by launches, frames and merges the history is that of the log of admitted calls and the reasoning that of the whole stream |
| `Observation.ApplyEffect` | crates/external-daemon/src/observation.rs:243-258 | what a frame does to the history and to the reasoning |
| `ObservationFrames.ToldIsRecorded` | crates/external-daemon/src/observation.rs:283-308 | told by member names and strings alone: a tool call message with usable ids and an event id new to the launch is recorded, room given, under the identity of its turn and call id and the tool it names; if it was not known, it heads the recent calls of that tool with its call id and arguments, and nothing else changes |
| `ObservationFrames.DescribedIsRecorded` | crates/external-daemon/src/observation.rs:316-367 | the same of a call that is described |
| `ObservationFrames.CountedAsTold` | crates/external-daemon/src/observation.rs:369-430 | in every reachable state each identity known is that of a frame with that turn, call id and tool, and is shown under that call id |
| `ObservationFrames.ThoughtIsHeard` | crates/external-daemon/src/observation.rs:245-256 | the reasoning stream grows by exactly the text of each reasoning frame with a new event id, and by nothing else |
| `ObservationFrames.RefusedCosts` | crates/external-daemon/src/observation.rs:227-241 | a call without a usable id, or without room for its source id, is not recorded and costs the history its completeness |
| `ObservationFrames.ReplayChangesNothing` | crates/external-daemon/src/observation.rs:232-236 | a frame whose source id is known is as if it had not come |
| `ObservationFrames.SnapshotAdvances` | crates/external-daemon/src/observation.rs:520-535 | every change gives the snapshot the next number |
| `ObservationFrames.AdapterSpeaks` | crates/external-daemon/src/observation.rs:198-215 | contract, reasoning and completeness are up to the adapter launched first |
| `ObservationMerge.MergeIsSequential` | crates/external-daemon/src/observation.rs:441-518 | merging a new launch equals one uninterrupted run: history with counts, order and recent lists, reasoning text and flag, replay keys, scope and both completeness flags; the loss count too, unless the joint reasoning overflows |
| `ObservationMerge.RunsBeside` | crates/external-daemon/src/observation.rs:217-258 | step by step the uninterrupted run stands beside the two claims |
| `ObservationMerge.DecideAlike` | crates/external-daemon/src/observation.rs:235-244 | a scoped replay key is judged the same with and without the keys of older launches |
| `ObservationMerge.KeysNameScopes` | crates/external-daemon/src/observation.rs:577-579 | replay keys of an unused scope are in no reachable key set |
| `ObservationMerge.AbsorbAll` | crates/external-daemon/src/observation.rs:497-516 | replay keys of both sides are united, in any order, when they fit |
| `ObservationMerge.CompleteReasoningFits` | crates/external-daemon/src/observation.rs:441-451 | reasoning reported complete was never cut |
| `ObservationCoverage.CompleteMeansCounted` | crates/external-daemon/src/observation.rs:217-258 | over launches, frames and merges, with delivery judged by the members of the frames alone: no call is counted that was not delivered; while the history is reported complete, the calls counted are exactly those delivered under a source id new to its launch, hence all calls delivered if no launch reuses a source id, and in general all iff each was delivered once under a new id |
| `ObservationCoverage.CompleteKeepsKeys` | crates/external-daemon/src/observation.rs:497-516 | a merge that reports its history or its reasoning complete has forgotten no source id of either side, and a loss is on record |
| `ObservationCoverage.ReuseHidesCall` | crates/external-daemon/src/observation.rs:235-244 | an input for the condition: of two calls described under one source id the second goes uncounted while the history is reported complete |
| `ObservationCoverage.ReachableCounts` | crates/external-daemon/src/observation.rs:369-430 | in every reachable state the counts of the tools add up to the calls admitted |
| `ObservationCoverage.ReachableNumbers` | crates/external-daemon/src/observation.rs:414-417 | in every reachable state the calls are numbered 1 to n, each number once and none left out |
| `ObservationCoverage.ReachableRecent` | crates/external-daemon/src/observation.rs:420-428 | in every reachable state a tool shows counted calls of its own, newest first, and a call is missing only behind five newer ones |
| `ObservationCoverage.ReachableIsBounded` | crates/external-daemon/src/observation.rs:18-23 | every collection, the recent lists and the reasoning stay within their caps in every reachable state |
| `Snapshot.SnapshotIsOrderFree` | crates/external-daemon/src/observation.rs:541-556 | the tools shown do not depend on the order of the map |
| `Snapshot.SnapshotShowsBest` | crates/external-daemon/src/observation.rs:541-558 | the tools shown descend, and one is left out only if three are shown that rank above it |
| `Snapshot.RankingIsByUse` | crates/external-daemon/src/observation.rs:543-549 | no tool left out has more calls than one shown, nor as many with a newer last call |
| `Snapshot.RanksAboveIsStrict` | crates/external-daemon/src/observation.rs:543-549 | of two tools exactly one ranks above the other |
| `Snapshot.RanksAboveIsTransitive` | crates/external-daemon/src/observation.rs:543-549 | the ranking is transitive |
| `Arguments.ExcludeCounts` | crates/external-daemon/src/observation.rs:600-623 | the counter is the number of removed fields that are not inside another one |
| `Arguments.CleanedAt` | crates/external-daemon/src/observation.rs:600-623 | position by position: nothing at or below a protocol field, everything else as it was |
| `Arguments.ProjectIsBounded` | crates/external-daemon/src/observation.rs:625-649 | the arguments recorded serialise to at most 4096 bytes, are the cleaned input or its preview, and the clear after the preview is never reached |
| `Arguments.ProjectHasNoProtocolField` | crates/external-daemon/src/observation.rs:625-649 | no recorded argument holds the protocol field at any depth |
| `ObservationCoverage.AbsentInputSaysNothing` | crates/external-daemon/src/observation.rs:292-300 | a call without an argument object is recorded as unknown, so it erases nothing |
| `Arguments.CutPreview` | crates/external-daemon/src/observation.rs:636-639 | the loop steps back to the longest prefix of at most 2000 bytes |
| `Json.EscapeDoubles` | crates/external-daemon/src/observation.rs:24-28 | escaping printable text at most doubles its bytes |
| `ObservationState.ObservationState.ForLaunch` | crates/external-daemon/src/observation.rs:198-215 | the state of a fresh launch |
| `ObservationState.ObservationState.ObserveMessage` | crates/external-daemon/src/observation.rs:217-258 | the whole new state after a streaming message |
| `ObservationState.ObservationState.ObserveReasoning` | crates/external-daemon/src/observation.rs:260-281 | the new buffer, tail and flags |
| `ObservationState.ObservationState.ObserveTool` | crates/external-daemon/src/observation.rs:283-309 | the state after a tool call frame |
| `ObservationState.ObservationState.ObserveDescriptor` | crates/external-daemon/src/observation.rs:316-367 | the state after a descriptor |
| `ObservationState.ObservationState.RecordToolCall` | crates/external-daemon/src/observation.rs:369-430 | the state after one call |
| `ObservationState.ObservationState.MergeNewer` | crates/external-daemon/src/observation.rs:441-518 | the merged state, for any order of visiting the hashed collections |
| `ObservationState.ObservationState.ReplayCalls` | crates/external-daemon/src/observation.rs:459-495 | the replay loop |
| `ObservationState.ObservationState.AbsorbKeys` | crates/external-daemon/src/observation.rs:497-516 | the key loops, with their early exit |
| `ObservationState.ObservationState.DropOne` | crates/external-daemon/src/observation.rs:520-528 | the flags and counters of a dropped event |
| `ObservationState.ObservationState.ObserveLoss` | crates/external-daemon/src/observation.rs:530-535 | the flags and counters of a lost line |
| `Detached.IdentitySafety` | crates/external-runtime/src/detached.rs:166-292 | over every interleaving with crashes, timeouts and recycled pids: a successful spawn names the helper's own runtime in its identity and its exit queue, the identity handed to the cleanup after NACK is that of the same runtime, and a reported exit status is its own |
| `Detached.OneDirective` | crates/external-runtime/src/detached.rs:324-375 | at most one directive is written, none before the parent is reaped, and the helper reaps only after REAP |
| `Detached.DirectiveIsDeserved` | crates/external-runtime/src/detached.rs:249-291 | in every run, by what the looks of the daemon met: once a directive is written it is ACK iff the pid was found alive with a sound identity and registered on, alive still, without a fault; NACK iff a fault struck or the identity was unsound; REAP iff the pid was dead or gone; the spawn succeeds exactly on ACK, and cleanup follows exactly a fault at the registration |
| `Detached.DirectiveIsWritten` | crates/external-runtime/src/detached.rs:324-332 | and it is written as soon as the daemon gets to write it while the helper lives |
| `Detached.ParentIsAwaited` | crates/external-runtime/src/detached.rs:218-223 | the daemon goes on to the handshake only once the parent is dead |
| `Detached.FailureIsAnnounced` | crates/external-runtime/src/detached.rs:229-246 | a parent or helper that fails says so, and the daemon refuses with nothing written |
| `Detached.HealthySpawnStarts` | crates/external-runtime/src/detached.rs:166-292 | a spawn in which nothing goes wrong succeeds and leaves the runtime alone |
| `Detached.ReapIsAnswered` | crates/external-runtime/src/detached.rs:350-375 | from every reachable state in which daemon and helper wait for the death of the runtime, its status is answered and reported as it was |
| `Detached.DeathShows` | crates/external-runtime/src/detached.rs:616-636 | a runtime that dies is dead to whoever looks, its pid still its own and its status kept |
| `Detached.HelperObeys` | crates/external-runtime/src/detached.rs:616-636 | REAP makes the helper wait for the runtime; any other directive lets it go and leaves the runtime alone |
| `Detached.WriteProvesHelper` | crates/external-runtime/src/detached.rs:324-332 | a directive that can be written proves the helper alive and the pid still the runtime's |
| `Detached.PidIsHeld` | crates/external-runtime/src/detached.rs:551-639 | while the helper lives and was not told to reap, the pid denotes the runtime, dead or alive |
| `Detached.RunInv` | crates/external-runtime/src/detached.rs:166-375 | the invariant of the four processes, the table and the two pipes |
| `Detached.ObservationAloneProvesNothing` | crates/external-runtime/src/detached.rs:249-262 | a concrete run in which the observed process is a stranger with a recycled pid; there no directive can be written |
| `Detached.ParentMasksHelper` | crates/external-runtime/src/detached.rs:218-223 | a concrete run in which a directive could be written before the parent is reaped although the helper is dead |
| `StopGate.SingleFlight` | crates/external-runtime/src/lib.rs:770-833 | at most one thread performs a stop, in the generation the gate shows; the waiter count is the number of threads parked on that generation |
| `StopGate.WaiterIsNeverPassedOver` | crates/external-runtime/src/lib.rs:803-827 | a woken waiter finds the gate stopped or its own generation; the break arm is never taken |
| `StopGate.CallersAgree` | crates/external-runtime/src/lib.rs:761-864 | success is one and the same for all callers; whoever comes back from a generation comes back with how that generation ended |
| `StopGate.CameBackFrom` | crates/external-runtime/src/lib.rs:784-833 | whoever comes back from a generation performed it or waited for it, in the very call it came back from |
| `StopGate.FailedStopIsRetried` | crates/external-runtime/src/lib.rs:784-795 | while the gate is not stopped, no stop is under way and nobody is leaving a failed one, the next caller, or queued thread that wakes, performs a stop of the next generation |
| `StopGate.IdleGateIsTried` | crates/external-runtime/src/lib.rs:770-795 | in particular a call performs a stop whenever everybody is back and none has succeeded |
| `StopGate.DecisionReachesAll` | crates/external-runtime/src/lib.rs:835-858 | a decided stop is back with its performer at once, and everybody who waits for it is notified |
| `StopGate.WaiterComesBack` | crates/external-runtime/src/lib.rs:803-827 | a waiter that wakes comes back with how its generation ended, or goes on waiting while it has not |
| `StopGate.SuccessWasPerformed` | crates/external-runtime/src/lib.rs:835-864 | a shared success was performed by some generation |
| `StopGate.StoppedIsFinal` | crates/external-runtime/src/lib.rs:775-775 | a stopped gate stays stopped with the same outcome |
| `StopGate.NoLostWakeup` | crates/external-runtime/src/lib.rs:835-858 | a parked thread that could proceed has been notified |
| `StopGate.NoDeadlock` | crates/external-runtime/src/lib.rs:770-858 | while a thread is parked, a stop is under way or a notified thread can proceed |
| `ProcessGroups.PerformStop` | crates/external-runtime/src/lib.rs:866-913 | every signal sent was allowed by what had been seen, success only after the group was seen empty; a group that outlives both signals gets TERM, then KILL, then an error; one that heeds TERM gets TERM alone; one already gone gets none |
| `ProcessGroups.PerformDetachedStop` | crates/external-runtime/src/lib.rs:915-943 | the same for a detached runtime |
| `ProcessGroups.StopPersisted` | crates/external-runtime/src/lib.rs:1172-1207 | the same rules for a recorded group, which may have lost its leader: a group that has emptied gets no signal; one that is led, or orphaned but beyond doubt, gets TERM, alone if it then empties, followed by KILL and an error if it stays |
| `ProcessGroups.TermIsJustified` | crates/external-runtime/src/lib.rs:879-898 | when TERM was sent, the table had shown the recorded leader, and at the last look the group held it and nobody of another user; or, for a recorded group only, the leader was gone and the group inhabited |
| `ProcessGroups.KillIsJustified` | crates/external-runtime/src/lib.rs:899-907 | KILL follows one TERM and a last look that found nobody of another user |
| `ProcessGroups.SuccessIsProved` | crates/external-runtime/src/lib.rs:1382-1448 | a stop that succeeds ended with a look at the table in which the group was empty |
| `ProcessGroups.ObserveGroup` | crates/external-runtime/src/lib.rs:1158-1170 | up to four attempts; torn reads add nothing to what is known |
| `ProcessGroups.ObserveProcess` | crates/external-runtime/src/lib.rs:1148-1156 | signal-unsafe pids are refused unseen |
| `ProcessGroups.SignalGroup` | crates/external-runtime/src/lib.rs:1273-1301 | only safe targets are signalled |
| `ProcessGroups.WaitForGroupDeath` | crates/external-runtime/src/lib.rs:1382-1410 | ends with an exit only after the group was seen empty |
| `ProcessGroups.WaitForPersistedGroupDeath` | crates/external-runtime/src/lib.rs:1412-1428 | answers yes only after the group was seen empty |
| `ProcessGroups.EnsureGroupEmpty` | crates/external-runtime/src/lib.rs:1430-1448 | succeeds only after the group was seen empty |
| `ProcessGroups.LookOnce` | crates/external-daemon/src/lib.rs:1519-1520 | the one look of the event pump is what the other components take it to be: its log is what the table showed, and its answer is what the last look in it saw |
| `ProcessGroups.EmptyLookIsProof` | crates/external-daemon/src/lib.rs:1519-1543 | a look at the group that finds nobody was a look at a table without the group |
| `GroupLineage.SignalReaches` | crates/external-runtime/src/detached.rs:333-348 | whom the signals of a cleanup or any other lawful stop reach: each follows a look at the group and reaches a stranger iff the group of the runtime had died out by then and is inhabited again; sent as TERM on sight of the leader, only if that happened between the look and the signal; had it died out by the look, the pid of the leader had been found unused |
| `GroupLineage.StrangersIff` | crates/external-runtime/src/lib.rs:1182-1188 | the members of a group are all kin of the runtime or all strangers, and strangers exactly if it is inhabited and died out before |
| `GroupLineage.OrphansCanBeStrangers` | crates/external-runtime/src/lib.rs:1182-1188 | an environment in which the condition is met on the leaderless path |
| `GroupLineage.StopMeetsStranger` | crates/external-runtime/src/lib.rs:1172-1207 | and the stop run in it: it succeeds and has sent TERM |
| `Correlator.BeginsCleanlyIff` | crates/external-runtime/src/lib.rs:544-568 | in every reachable state, beginning a request leaves every other request and registration alone iff its id is not pending, and iff that holds the next response under the id reaches it; otherwise the waiting caller is cut off, the new one fails and the response is lost |
| `Correlator.OwnAnswerIff` | crates/external-runtime/src/lib.rs:544-568 | a caller that began under a free id can never be given another caller's answer, in any continuation, iff no answer to an earlier request under that id is still due |
| `Correlator.ResponsesAreAccounted` | crates/external-runtime/src/lib.rs:1661-1679 | whatever ids are used, every response that arrives is broadcast, lost on a sender whose caller had given up, or put into the channel of one caller, each into exactly one; no channel ever holds two deliveries |
| `Correlator.RoutedOnce` | crates/external-runtime/src/lib.rs:1661-1679 | with fresh ids a response goes to the one caller that waits for its id, or to the subscribers if nobody does |
| `Correlator.NoForeignResponse` | crates/external-runtime/src/lib.rs:215-234 | with fresh ids and a runtime that answers requests, every answer a caller is given or ends with is the answer to its own request |
| `Correlator.DeliveryDecides` | crates/external-runtime/src/lib.rs:215-234 | in every run, whatever ids are used: what was put into the channel of a caller is what it ends with, exactly if it receives before it times out or is dropped, and nothing else is ever put there |
| `Correlator.AnswerIsReturned` | crates/external-runtime/src/lib.rs:215-219 | with fresh ids a request that waits when its response arrives ends with exactly that response if it receives before it gives up |
| `Correlator.EndIsReturned` | crates/external-runtime/src/lib.rs:1680-1693 | and one that waits when the child exits or the stream ends, with that |
| `Correlator.FailureIsReturned` | crates/external-runtime/src/lib.rs:215-234 | a request that cannot be written, is cut off, or times out ends with that |
| `Correlator.OverIsOver` | crates/external-runtime/src/lib.rs:215-240 | a caller that has come to an end keeps it and is given nothing any more, in any run |
| `Correlator.AnsweredAtMostOnce` | crates/external-runtime/src/lib.rs:1661-1679 | what a response belongs to: a request is answered at most once, and only after it was written |
| `Correlator.DuplicatesAreUnmatched` | crates/external-runtime/src/lib.rs:1661-1679 | a second response under the same id is always broadcast |
| `Correlator.ExitFailsEveryWaiter` | crates/external-runtime/src/lib.rs:1680-1693 | the exit of the child fails every caller then registered |
| `Correlator.ReuseLosesResponse` | crates/external-runtime/src/lib.rs:553-556 | a concrete run: beginning under a pending id cuts off the first caller and loses the response |
| `Correlator.ReuseMisdelivers` | crates/external-runtime/src/lib.rs:216-228 | a concrete run: beginning under the id of a timed-out request hands the late answer to the wrong caller |
| `LineReader.ReadBoundedLine` | crates/external-runtime/src/lib.rs:1832-1861 | a line is handed out iff its wire length with the delimiter is within the cap; otherwise exactly cap + 1 is reported |
| `LineReader.ReadLines` | crates/external-runtime/src/lib.rs:1717-1781 | the loop yields exactly the split lines up to the first that is too long |
| `LineReader.FramesSurvive` | crates/external-runtime/src/lib.rs:1832-1861 | newline-free frames not ending in a carriage return that fit the cap survive writing and reading |
| `LineReader.SurvivesIff` | crates/external-runtime/src/lib.rs:1832-1861 | and only those do |
| `Publisher.Publisher.constructor` | crates/external-daemon/src/lib.rs:530-540 | a publisher that has published nothing |
| `Publisher.Publisher.EmitDriverEvent` | crates/external-daemon/src/lib.rs:553-569 | the new state after a driver event and an optional exit terminal |
| `Publisher.Publisher.BeginStop` | crates/external-daemon/src/lib.rs:571-581 | the terminal that has won, or the announcement of a stop |
| `Publisher.Publisher.PublishTerminalOnce` | crates/external-daemon/src/lib.rs:583-590 | the first terminal wins and every caller gets the winner |
| `Publisher.Publisher.PublishCleanupTerminal` | crates/external-daemon/src/lib.rs:599-603 | the outcome of a real cleanup replaces any terminal |
| `Publisher.EmitDriverValid` | crates/external-daemon/src/lib.rs:553-569 | records stay numbered without gap, and no driver record follows a terminal |
| `RuntimeOwner.RecordsAreOrdered` | crates/external-daemon/src/lib.rs:631-644 | over every run of pump, callers and cleanup the records are numbered 1, 2, 3, ... and no driver record follows the first terminal |
| `RuntimeOwner.OneTerminalForAll` | crates/external-daemon/src/lib.rs:1279-1298 | without a forced cleanup there is at most one terminal, and every caller that comes back comes back with it |
| `RuntimeOwner.ReapIsProved` | crates/external-daemon/src/lib.rs:1518-1544 | for every record published in every run of pump, callers, gate and cleanups: if its terminal claims the group is gone, there is a time, not after the step that published it, at which the process table held nobody of the group |
| `RuntimeOwner.AnswerIsProved` | crates/external-runtime/src/lib.rs:761-943 | the same for the terminal any caller comes back with, also when it shared the stop of another caller |
| `RuntimeOwner.TurnIsReportedTruly` | crates/external-daemon/src/lib.rs:1279-1298 | a published completed or failed turn was preceded by a caller that came with that boundary and by a stop with the outcome reported, or, if completed, by a clean exit after the turn tracker had seen the turn completed |
| `RuntimeOwner.ExitIsReportedTruly` | crates/external-daemon/src/lib.rs:1518-1544 | a published exit is the one the pump saw |
| `RuntimeReports.SuccessIsReported` | crates/external-daemon/src/lib.rs:1284-1290 | the converse, by the records published: a caller whose stop came to an outcome and that asks before a terminal is decided reports the completed turn, the failed turn or the stop it came for, with that outcome, if the exit of the child is among the records, and a lost stream otherwise |
| `RuntimeReports.OthersLeaveAlone` | crates/external-daemon/src/lib.rs:1279-1298 | nobody but a caller itself moves it on, so what it is ready to report stays what it was |
| `RuntimeReports.ReadyIsPublished` | crates/external-daemon/src/lib.rs:583-603 | what a caller is ready to report is the next record and everybody's terminal, unless another was decided, which it then comes back with; a cleanup is published in any case |
| `RuntimeReports.AnswerDecides` | crates/external-daemon/src/lib.rs:1283-1296 | what the answer of the stop gate makes of a caller, for a finish and for a cleanup |
| `RuntimeReports.PersistedIsReported` | crates/external-daemon/src/lib.rs:173-186 | what the stop of the recorded group makes of a cleanup |
| `RuntimeReports.ExitIsReported` | crates/external-daemon/src/lib.rs:1518-1544 | what the pump makes of an exit, by the turn marks it forwarded: the completed turn iff the exit is clean, the look empty and the latest turn ended as completed; a lost stream, the exit itself or an orphaned group otherwise |
| `RuntimeReports.ExitIsPublished` | crates/external-daemon/src/lib.rs:553-569 | the exit is published unless a terminal was decided, with its terminal unless a caller is stopping the runtime |
| `RuntimeReports.LossIsPublished` | crates/external-daemon/src/lib.rs:1551-1559 | a lost stream is published as lost unless a terminal was decided |
| `RuntimeReports.ExitWasSeen` | crates/external-daemon/src/lib.rs:1518-1544 | an exit among the records was seen by the pump, with its look at the group |
| `RuntimeReports.ForcedByCleanup` | crates/external-daemon/src/lib.rs:599-603 | only a cleanup ever replaces a terminal |
| `RuntimeReports.CallAgain` | crates/external-daemon/src/lib.rs:1279-1282 | whoever calls again once a terminal is decided is told it at once, and nothing more is published |
| `RuntimeReports.EventsAreForwarded` | crates/external-daemon/src/lib.rs:553-569 | the driver records are exactly the events the pump passed on before a terminal was decided, unchanged and in order |
| `RuntimeReports.FinishedIsReported` | crates/external-daemon/src/lib.rs:1279-1298 | a whole call: begun, stopped, exit delivered, awaited and published, it ends in the terminal it came for |
| `RuntimeReports.CleanupIsReported` | crates/external-daemon/src/lib.rs:173-186 | a whole cleanup that the driver refuses and the recorded group allows |
| `TaskLifecycle.ReapChain` | crates/external-daemon/src/lifecycle_sink.rs:137-179 | from the process table to the reaped task: whenever a task is marked as reaped, it was finished cleanly with a terminal that claims the group is gone, handed over by a caller or the publisher, and before that the process table held nobody of the group |
| `TaskLifecycle.VanishedIsReaped` | crates/external-daemon/src/lib.rs:101-114 | and the chain can be walked: a child that exits with a failure, an empty look after it and a store that lets everything pass end in a reaped task |
| `TaskLifecycle.FinishReapsIff` | crates/external-daemon/src/lifecycle_sink.rs:164-179 | a finish that gets to the end is the last, and reaps iff its cleanup succeeded and the terminal is an exit, a stop or a finished turn |
| `TaskLifecycle.TerminalComesLast` | crates/external-daemon/src/lifecycle_sink.rs:147-163 | over every run of a runtime, every answer of lifecycle and store, and any number of finishes that failed half-way: the store holds one record per number in ascending order, terminals after all others; a finish writes the terminal above every other record, under the number of the newest admitted record, which is a terminal, or a new one |
| `TaskLifecycle.FinishedAgain` | crates/external-daemon/src/lifecycle_sink.rs:147-163 | a repeated finish asks for the same number iff no record was admitted since, and otherwise for the higher number of a terminal record |
| `LifecycleSink.FirstFaultStays` | crates/external-daemon/src/lifecycle_sink.rs:368-381 | the first admitted oversized line stays the transport fault |
| `LifecycleSink.EverythingIsWritten` | crates/external-daemon/src/lifecycle_sink.rs:384-491 | as long as lifecycle and store let everything pass, the store holds every driver record in order and the terminal is held back |
| `LifecycleSink.FailureIsFinal` | crates/external-daemon/src/lifecycle_sink.rs:455-491 | a record that cannot be stored fails the sink for good |
| `LifecycleSink.FaultIsNoted` | crates/external-daemon/src/lifecycle_sink.rs:368-381 | the first admitted oversized line is noted with its size and number |
| `LifecycleSink.InsertEnds` | crates/external-daemon/src/lifecycle_sink.rs:425-454 | how the retry loop ends: after conflicts that were waited out, by the store taking the request or breaking, the lifecycle closing, or the deadline |
| `LifecycleSink.StoreLifecycleSink.EmitRecord` | crates/external-daemon/src/lifecycle_sink.rs:353-491 | the new state after a record, including the retry loop for answerable requests |
| `LifecycleSink.StoreLifecycleSink.InsertPending` | crates/external-daemon/src/lifecycle_sink.rs:425-454 | how the wait for the insertion ends |
| `LifecycleSink.StoreLifecycleSink.Finish` | crates/external-daemon/src/lifecycle_sink.rs:130-179 | the new state after a finish |
| `Messages.MessagesOnlyMoveForward` | crates/external-store/src/messages.rs:9-107 | over any run a message only moves forward, never disappears, keeps its own id, and changes nothing but its state |
| `Messages.ApplyKeeps` | crates/external-store/src/messages.rs:9-107 | one operation moves a message from waiting to sending or failed, or from sending to delivered or failed |
| `Messages.ClaimedAtMostOnce` | crates/external-store/src/messages.rs:54-85 | a message is claimed at most once |
| `Messages.ClaimTakesFirst` | crates/external-store/src/messages.rs:65-73 | a claim takes a steering message if one waits, and within a mode the oldest by time and row |
| `Messages.IdStaysBound` | crates/external-store/src/messages.rs:29-44 | inserting a known id answers no for the same message, conflicts for any other, and changes nothing |
| `Messages.InsertedIsKept` | crates/external-store/src/messages.rs:9-47 | a new message of a known mode is kept, waiting and as given, iff the task is not over, closing or stopping |
| `Messages.ClaimSends` | crates/external-store/src/messages.rs:54-85 | a claim sends a message iff one of the agent waits and its task is running or waiting for input, neither closing nor stopping; that one and no other |
| `Messages.MessageEnds` | crates/external-store/src/messages.rs:87-107 | completing delivers a message being sent, failing fails one not done with, and neither touches anything else |
| `Messages.MessageTable.InsertMessage` | crates/external-store/src/messages.rs:9-47 | the new table and the answer, with its error cases |
| `Messages.MessageTable.ClaimNext` | crates/external-store/src/messages.rs:54-85 | the new table and the claimed row |
| `Messages.MessageTable.CompleteMessage` | crates/external-store/src/messages.rs:87-98 | only a message being sent is delivered |
| `Messages.MessageTable.FailMessage` | crates/external-store/src/messages.rs:100-107 | only a waiting message or one being sent fails |

## Left out

- Operating system calls: fork, spawn, kqueue, poll, /proc and their Darwin and Windows forms are an abstract process table and abstract pipes; an observation of a group is taken as one look at the table.
- Wall-clock bounds: timeouts may strike at any time, and no upper bound on a wait is proved.
- The bytes of a frame that is neither read nor written in full, and read errors of the line reader: the stream is given whole.
- The termination latch a detached stop waits on: its value is a parameter.
- Exit classification of the codex, dsh and agy transports: only the runtime owner of the daemon library is modelled.
- Restart classification, cancellation, session bootstrap, model switching and permission answers: linear calls or small tables. Of the turn tracker only the turn and its boundary are modelled, not its clocks and generation.
- The scheduler, the RPC layer and the store beyond the message table: admission, guards and store answers are parameters. Of the event table only that it takes one record per source number is modelled.
- Time-dependent snapshot fields (ages, in-flight lists) and terminal text trimming: they would only add easy members.
- The `revision` counter and `last_runtime_event_at` of the tracker: every event advances the one and sets the other, and nothing in the modelled code reads them.
- The adapters that turn the updates of their agents into streaming frames: only the reading of such frames is modelled (`Observation`, `ActivityParser`), so there is no round trip for them.
- Runtime source verification and its degradation: a flag that is only ever cleared.
- Stream keys and message-finished markers of the parser: nothing in the modelled code reads them.
- Parsing and serialising of wire frames other than their line framing.
- Detached, StopGate, Correlator, RuntimeOwner and TaskLifecycle are state machines over values: what several threads or processes do to shared fields is a sequence of steps, and aliasing of those fields is not modelled.
- The tracker class holds the observation history as a value; the class that updates it in place is proved on its own.
- ObservationMerge.MergeIsSequential: leaves out the snapshot counter, which a merge advances by the sum of both sides and not by the steps of one run.
