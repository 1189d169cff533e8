# Event-log replication: a verified model

A host keeps an append-only event log for one agent session and serves it to several reconnecting
clients. This project models that protocol and proves what it keeps over whole runs. It covers four
parts of the repository and the system they form:

| part | source | modules |
|---|---|---|
| event log, cached session row, snapshot fold | `internal/store/store.go` | `Store` |
| hub: connection setup, command handlers, ingest, broadcast | `internal/hub/hub.go` | `HubModel` (steps), `SyncHub` (the object), `HubStreams`, `HubTokens`, `HubProvenance`, `HubPending`, `HubFrames`, `HubRefusals`, `HubFates`, `HubReach`, `HubProgress`, `HubAnswers`, `HubWitnesses` |
| reducer: snapshot and events into a view | `clients/packages/harness-protocol/src/reducer.ts` | `Reducer`, `Text`, `Shape`, `Names`, `Registers`, `Views`, `Snapshots`, `Stream`, `Bounds`, `Tools`, `Cards`, `Shown` |
| reconnecting client | `clients/packages/harness-protocol/src/client.ts` | `ClientModel` (steps), `HarnessClient` (the object), `ClientRuns`, `ClientGaps`, `ClientOutbox`, `ClientActs` |
| host and client joined by a faulty network | all four | `SystemModel`, `SystemSync`, `SystemSockets`, `SystemViews`, `SystemCommands`, `SystemActs` |

`Protocol` holds the wire vocabulary and `Counting` the facts about folds, tallies and subsequences.

## How to read it

The two stateful programs appear twice. `SyncHub.Hub`, `Store.Store` and `HarnessClient.HarnessClient`
are objects with the source's fields and in-place updates. Each of their methods is proved equal to a step
of a machine on values (`HubModel`, `ClientModel`), and the theorems are about all sequences of those steps.
A step whose guard fails leaves the state alone, so every sequence of steps is a run and every interleaving
of goroutines is some sequence.

In the hub one step is one database transaction, one section under the lock, or one enqueue. Each
connection carries a program counter for its setup (`Setup`) and one for the command it is handling (`Work`);
the ingest loop has its own (`Ingest`). Whether a queue has room is an arbitrary input of every enqueue, as
is the outcome of every transaction (`Fault`). Fields such as `offered`, `joinedAt`, `origins`, `calls` and
`lost` are history that no step reads.

The reference points are independent of the code they judge. `Registers.Meaning` is the last write to a
register; `Counting.Tally` counts log entries; `Tools.Stack` is a push-down stack; `Cards.CardFold` a
four-state automaton; `Registers.InSync` compares the client with the host's fold;
`HubProvenance.Tells` reads a logged body back field by field and says whether it is what a request asked for.

## Main results

1. **Sync convergence.** In every run of host and client, a live client shows the status, mode and pending
   ids that the host's fold of `log[..lastSeq]` gives, although snapshots jump ahead and the catch-up
   re-adds requests and re-applies resolutions over a state that already contains them. The run may begin at
   any reachable hub, with a client that has restored its position (`SystemSync.SyncConvergence`,
   `SystemSync.LiveViewIsServerView`, `Registers.ReplayAbsorption`). Of cards whose id is used once it shows the
   host's very views (`SystemViews.LiveViewsAreHeld`). Over any mixture of sockets the view stays on its way to
   the host's exactly as long as each snapshot is harmless when it arrives and no event that leaves something
   out comes before the first
   (`SystemSockets.ConvergesExactlyWhenGuarded`, `SystemSockets.SyncOverAnySockets`).
2. **Prefix safety and agreement.** Whatever is lost, duplicated, reordered or delivered on an extra socket,
   the client's stream is the fold of a contiguous piece of the log and each item a faithful record of it; the
   pieces of any two clients agree (`ClientRuns.PrefixSafety`, `SystemSync.ReachableStreamRecordsLog`,
   `SystemSync.ClientsOfOneHubAgree`).
3. **First write wins.** In every interleaving of handlers and ingest the tokens of a card are conserved
   (`HubTokens.FirstWriteWins`), and the agent hears what the log records, which is what the device sent
   (`HubProvenance.AgentHearsWhatIsLogged`, `HubProvenance.CommandIsLoggedAsSent`).
4. **Commands end to end.** Each issued command is logged at most once and calls the agent at most once, failed
   calls included; a resolved promise names that command's own event; a rejected one, and one acked without a
   number, tell in every later state whether the command is in the log (`SystemCommands`).
5. **It happens.** In every interleaving no served connection misses a broadcast
   (`HubReach.NoClientMissesABroadcast`), every logged command is acked to its device
   (`HubReach.EveryLoggedCommandIsAcked`) and every command received is answered
   (`HubAnswers.EveryCommandIsAnswered`); from any state a usable command can run through, and so can an agent's
   event (`HubProgress.CommandRunsThrough`, `HubProgress.EventRunsThrough`). In every run of the system a live
   client has written its whole outbox and a lost link is retried (`SystemActs.LiveHasSentEverything`,
   `SystemActs.LostLinkIsRetried`), and a full stream stays full (`SystemSync.ReachableStreamStaysFull`).
6. **Connection streams**, **pending maps**, **outbox accounts**, **gap escalation**, **tools as stacks**,
   **cards as automata**, **stream order** and **memory bounds**, each over all runs.

Some statements one might expect are false of the code. Each is here with its exact condition and an input
that fails it:

| expected | exactly when | input that fails |
|---|---|---|
| the cached status is the folded one | `Store.CacheAgreesUnlessLost` | `Store.CacheCanGoStale` |
| the two folds agree on every pending id | `Registers.FoldsAgreeExactly` | `Registers.EmptyIdSplitsFolds` |
| they agree on the views shown | `Views.ViewsAgreeExactly` | `Views.ReRequestSplitsViews` |
| a snapshot of the log keeps a view in sync | `Snapshots.LateSnapshotExactly`, `Snapshots.SnapshotConvergesExactly` | `Snapshots.LateSnapshotRegresses`, `Snapshots.StaleModeSurvives` |
| with fresh ids, the hub's maps at rest are the log's | `HubPending.MapsAgreeAtRest` | `HubWitnesses.AnswerLost`; with a reused id, `HubWitnesses.ReaskedWhileTaken` |
| a pending card has no resolved item | `Cards.MismatchMeansReopened` | `Cards.ReusedIdReopens` |
| the text shown is the text logged | `Bounds.TextConserved` | `Bounds.LongDeltaIsClamped` |
| a command acked without a number is in the log | `SystemCommands.ZeroAckTellsTheLog` | `HubWitnesses.UnsupportedTwice` |

## Model

| member | source | states |
|---|---|---|
| Store.CounterKeepsLogDense | internal/store/store.go:186-221 | after any sequence of appends, whichever of them failed, the counter in the session row stands at the number of rows, the keys are exactly 1..counter, each row is numbered by its key, and in key order the rows are the log |
| Store.CacheAgreesUnlessLost | internal/store/store.go:202-208 | the cached status equals the status folded from the log if and only if the last status change did not lose its cache update |
| Store.CacheCanGoStale | internal/store/store.go:204-207 | one ignored error of the status update leaves the cache behind the log |
| Store.SnapshotSurvivesRace | internal/store/store.go:246-323 | events appended between the two reads of a snapshot, and a stale cached status, do not matter: the snapshot is exactly the state of the log at the second read |
| Store.FoldForgetsStart | internal/store/store.go:269-285 | the fold depends on its start only in the status, and on nothing after one status change |
| Store.SinceIsExact | internal/store/store.go:224-243 | the entries since a number are exactly the logged ones above it, ascending; negative numbers and numbers past the end included |
| Store.InsertExtendsLog | internal/store/store.go:188-200 | inserting the next row extends that session's log by one event and leaves every other session's log alone |
| Store.Store.CreateSession | internal/store/store.go:120-134 | a new session is idle with an empty log; other sessions keep theirs |
| Store.Store.AppendEvent | internal/store/store.go:175-221 | one transaction: the log grows by the next numbered event and the cache follows, or nothing changes and the call fails |
| Store.Store.GetEventsSince | internal/store/store.go:224-243 | the log above the number, cut to its first `limit` entries when the limit is positive; nothing for an unknown session |
| Store.Store.GetSnapshot | internal/store/store.go:246-323 | fails exactly for an unknown session; otherwise says what the host's fold of the whole log says |
| Store.Store.Materialize | internal/store/store.go:269-322 | the loop over the rows computes the fold from the row's status and lists each pending map once |
| Store.Store.ListValues | internal/store/store.go:316-321 | the loop over a map lists each value once, in whatever order the map yields |
| Store.PendingPermissionIsLogged | internal/store/store.go:290-301 | a pending permission is the body of a logged request, filed under its own id |
| Store.PendingQuestionIsLogged | internal/store/store.go:302-312 | a pending question is the body of a logged question, filed under its own id |
| Text.ClampText | clients/packages/harness-protocol/src/reducer.ts:350-358 | the clamp is a prefix within the byte bound, is the input exactly when that fits, and was cut from a prefix that did not fit |
| Text.Clamp | clients/packages/harness-protocol/src/reducer.ts:350-358 | the loop terminates and computes that clamp |
| Reducer.FinishTool | clients/packages/harness-protocol/src/reducer.ts:384-401 | the backward scan finishes the last unfinished tool of the name, or reports that there is none |
| Reducer.PushNotice | clients/packages/harness-protocol/src/reducer.ts:403-418 | the index loops compute the stream without its oldest surplus notices |
| Reducer.DedupeBy | clients/packages/harness-protocol/src/reducer.ts:420-431 | the loop with its set of seen keys keeps the first view of each key, in order |
| Reducer.OpenTool | clients/packages/harness-protocol/src/reducer.ts:389-391 | the found position is the last unfinished tool of the name, and none is found only if there is none |
| Reducer.EndTool | clients/packages/harness-protocol/src/reducer.ts:215-230 | an end without a matching start adds one finished tool |
| Reducer.AppendDelta | clients/packages/harness-protocol/src/reducer.ts:360-374 | a delta goes into the open assistant at the end, or opens one, clamped either way |
| Reducer.FindNotices | clients/packages/harness-protocol/src/reducer.ts:411-414 | the loop collects the positions of the notices in order |
| Reducer.CollectNames | clients/packages/harness-protocol/src/reducer.ts:131-135 | the loop over devices lets the last name of a device win |
| Reducer.DedupedKeepsKeys | clients/packages/harness-protocol/src/reducer.ts:420-431 | deduplication loses no key |
| Reducer.DedupedIsDistinct | clients/packages/harness-protocol/src/reducer.ts:420-431 | deduplication lists no key twice |
| Reducer.DedupedKeepsFirst | clients/packages/harness-protocol/src/reducer.ts:420-431 | of several views with one key the first survives |
| Reducer.SeedFromSnapshot | clients/packages/harness-protocol/src/reducer.ts:126-148 | the computation with its loops over devices and pending lists is the snapshot reducer |
| Reducer.AdvanceByEvent | clients/packages/harness-protocol/src/reducer.ts:151-326 | the computation with its loops is the event reducer |
| Reducer.SnapshotKeepsStream | clients/packages/harness-protocol/src/reducer.ts:125-148 | a snapshot never touches items or lastSeq, unless it starts another session |
| Registers.ServerFoldMeans | internal/store/store.go:279-314 | every register of the host's fold holds the last thing the log wrote to it |
| Registers.ApplyEventWrites | clients/packages/harness-protocol/src/reducer.ts:151-326 | one event through the client's reducer writes to each register exactly what the event writes |
| Registers.FoldsAgreeExactly | clients/packages/harness-protocol/src/reducer.ts:231-313 | the two folds agree on a register of a log if and only if it is not a card with an empty id that the host holds pending |
| Registers.EmptyIdSplitsFolds | clients/packages/harness-protocol/src/reducer.ts:231-238 | a request with an empty id is pending on the host alone |
| Registers.FoldsAgree | internal/store/store.go:269-321 | from an empty session both folds give the same status, mode and pending ids at every log |
| Views.HostHoldsLast | internal/store/store.go:290-313 | the host holds, for each card, the last request since the card's last resolution |
| Views.ClientShowsFirst | clients/packages/harness-protocol/src/reducer.ts:239-242 | the client shows, for each card with an id, the first request since the card's last resolution, and no other view |
| Views.ViewsAgreeExactly | clients/packages/harness-protocol/src/reducer.ts:231-313 | of a card pending on the host the client shows the host's view if and only if that first and that last request ask for the same |
| Views.ReRequestSplitsViews | clients/packages/harness-protocol/src/reducer.ts:239-242 | two requests with one id and different views split them |
| Registers.ReplayAbsorption | clients/packages/harness-protocol/src/reducer.ts:126-326 | replaying log[from..upTo] over the state of log[..tip], from below tip, gives the state of log[..upTo] |
| Registers.ConvergingSnapshot | clients/packages/harness-protocol/src/client.ts:400-406 | a snapshot no older than the events applied keeps the view on its way to the tip; if the wire leaves out an empty mode it must be no older than the last snapshot either |
| Registers.ConvergingEvent | clients/packages/harness-protocol/src/client.ts:417-427 | so does the next event of the log, on either side of the tip |
| Registers.ConvergedAtTip | clients/packages/harness-protocol/src/client.ts:430-434 | a view on its way that has reached the tip is the host's view |
| Snapshots.SnapshotConvergesExactly | clients/packages/harness-protocol/src/reducer.ts:126-148 | after any truthful snapshot, old or new, the view is on its way to the host's if and only if nothing the snapshot carries was rewritten between its tip and what the client has seen, and a mode left out is right as it stands or will be rewritten |
| Snapshots.LateSnapshotExactly | clients/packages/harness-protocol/src/client.ts:400-412 | a snapshot no newer than a view in sync leaves it in sync if and only if each register it carries was, since its tip, not rewritten or rewritten last to the same value |
| Snapshots.NewerIsHarmless | clients/packages/harness-protocol/src/client.ts:400-412 | a snapshot at or above what the client has seen is harmless |
| Snapshots.LateSnapshotRegresses | clients/packages/harness-protocol/src/client.ts:400-412 | an older snapshot puts a client that was in sync out of sync, and it believes to be caught up |
| Snapshots.StaleModeSurvives | clients/packages/harness-protocol/src/reducer.ts:142 | an older snapshot without a mode leaves the mode of a newer one standing, though the client has applied no event |
| Names.SameStreamStep | clients/packages/harness-protocol/src/reducer.ts:335-338 | device names influence nothing in the stream but the names shown for answers |
| Stream.StreamIsOrdered | clients/packages/harness-protocol/src/reducer.ts:151-332 | after any consecutive piece of a log and any trimming, items ascend strictly in seq up to the end of the piece and have distinct ids |
| Stream.DecimalInjective | clients/packages/harness-protocol/src/reducer.ts:160-161 | two sequence numbers never print alike, so generated item ids cannot clash |
| Stream.StreamRecordsLog | clients/packages/harness-protocol/src/reducer.ts:151-332 | whichever consecutive piece of a log is applied up to its end, every item says what the log says at its seq, an assistant's text is taken in order from the deltas logged from its seq on, a finished tool has the output of a later end, and a card shows the last decision logged after it |
| Bounds.AssistantTextBounded | clients/packages/harness-protocol/src/reducer.ts:345-374 | no assistant text ever exceeds 262144 bytes of UTF-8 |
| Bounds.TextConserved | clients/packages/harness-protocol/src/reducer.ts:360-374 | without trimming, the text shown is the text logged if no delta was clamped, and shorter if one was |
| Bounds.TextIsLogged | clients/packages/harness-protocol/src/reducer.ts:329-374 | with any clamping and trimming, the text shown is the logged text with pieces left out, nothing doubled or out of order |
| Bounds.LongDeltaIsClamped | clients/packages/harness-protocol/src/reducer.ts:350-374 | one delta of 262145 bytes is clamped |
| Bounds.NoticePushedKeepsNewest | clients/packages/harness-protocol/src/reducer.ts:403-418 | pushing a notice keeps the newest 50 notices and every other item in order |
| Bounds.NoticesAreNewest | clients/packages/harness-protocol/src/reducer.ts:314-318 | without trimming, the notices shown are exactly those of the newest 50 errors of the log |
| Bounds.TrimmedNoticesAreNewest | clients/packages/harness-protocol/src/reducer.ts:314-332 | with any trimming they are at most 50 and still the newest errors |
| Tools.ToolsRefineStack | clients/packages/harness-protocol/src/reducer.ts:201-230 | over any log, the unfinished tools of a name are the stack of its starts popped by its ends, and its items number starts plus unmatched ends |
| Tools.FinishPops | clients/packages/harness-protocol/src/reducer.ts:384-401 | finishing a tool pops the top of its name's stack |
| Cards.CardsRefineAutomaton | clients/packages/harness-protocol/src/reducer.ts:231-313 | over any log, a card's pending entry and its item's resolution follow one four-state automaton |
| Cards.PendingMeansUnresolved | clients/packages/harness-protocol/src/reducer.ts:231-313 | with fresh ids a card is pending exactly when it has an unresolved item |
| Cards.MismatchMeansReopened | clients/packages/harness-protocol/src/reducer.ts:243-256 | a card is pending with a resolved item exactly when it was asked for again after its answer |
| Cards.ReusedIdReopens | clients/packages/harness-protocol/src/reducer.ts:231-277 | and three events do that |
| Shown.TrimKeepsNewest | clients/packages/harness-protocol/src/reducer.ts:329-332 | a trimmed stream ends the untrimmed one, has the lesser of its length and the maximum, and nothing else of the view changes |
| Shown.FullStreamStaysFull | clients/packages/harness-protocol/src/client.ts:424-427 | an event that adds an item to a stream at its maximum leaves a stream at its maximum, the added item last, and unless that is an error notice only the oldest is gone |
| Shown.EveryAdditionStays | clients/packages/harness-protocol/src/reducer.ts:151-326 | without trimming, whatever an event adds, but for error notices, stays in the stream for good |
| Shown.EveryPromptIsShown | clients/packages/harness-protocol/src/reducer.ts:156-169 | without trimming, every prompt of the log is in the stream with its text, time and device |
| Shown.DeltasFollowTurns | clients/packages/harness-protocol/src/reducer.ts:360-382 | the first delta after a prompt or the end of a turn opens an item of its own, and a delta right after another joins it |
| Shown.TurnIsActive | clients/packages/harness-protocol/src/reducer.ts:156-189 | over any log, a turn is active exactly if a prompt or a running status began one and no end of turn or other status came since |
| Shown.UsageIsLast | clients/packages/harness-protocol/src/reducer.ts:194-200 | over any log, the usage shown is that of the last update, and none is shown if there was none |
| Shown.ResolutionMarks | clients/packages/harness-protocol/src/reducer.ts:257-274 | a resolution marks exactly the items of its card, with its decision, device and the device's name; a known device has the name a snapshot gave it, any other the first eight characters of its id |
| Shown.AnswerMarks | clients/packages/harness-protocol/src/reducer.ts:299-313 | an answer marks exactly the items of its question, likewise |
| Shown.SnapshotBringsDevices | clients/packages/harness-protocol/src/reducer.ts:131-135 | a snapshot replaces the devices; of several names of a device its last counts, and a device it does not list keeps its name unless the session is another |
| ClientRuns.PrefixSafety | clients/packages/harness-protocol/src/client.ts:324-457 | over any network that delivers only genuine events, with drops, duplicates, reordering and extra sockets, the client has applied exactly log[base..lastSeq] and shows its fold |
| ClientRuns.Agreement | clients/packages/harness-protocol/src/client.ts:417-440 | the pieces of one log that any two clients, restored at any positions, have applied agree where they overlap, and from one base one is a prefix of the other |
| ClientGaps.GapsStaySound | clients/packages/harness-protocol/src/client.ts:400-457 | in every run at most two gaps are on record, a recorded gap is above lastSeq+1, and live implies lastSeq >= tipSeq |
| ClientGaps.ThreeGapsForceResync | clients/packages/harness-protocol/src/client.ts:442-457 | three gaps at one number, with no event applied and no connect or reset by the user between, force a full resync: unless an event is applied first, every socket that opens once the user or the timer has tried for one sends a hello of lastSeq 0, failed attempts in between included |
| ClientGaps.OnlyThirdGapForcesResync | clients/packages/harness-protocol/src/client.ts:442-454 | nothing but a third gap at one number asks for a full resync |
| ClientOutbox.OutboxAccounted | clients/packages/harness-protocol/src/client.ts:298-320 | in every run each issued command is in exactly one of outbox, orphaned and settled, settles at most once, and is only ever sent under its own id as key; the outbox holds at most 32 |
| ClientOutbox.OnlySessionChangeOrphans | clients/packages/harness-protocol/src/client.ts:400-403 | only a snapshot of another session orphans a command, and only one from the outbox |
| ClientActs.WritesExactly | clients/packages/harness-protocol/src/client.ts:298-320 | when a command is accepted, a snapshot leaves the client live or an event makes it live, a client that is then live on an open socket writes exactly its outbox, in order; in every other case nothing is written |
| ClientActs.SendingQueues | clients/packages/harness-protocol/src/client.ts:298-309 | below 32 waiting commands a new one is queued last, under its own id as key, and waits; at 32 nothing changes |
| ClientActs.AnswersSettle | clients/packages/harness-protocol/src/client.ts:473-501 | an ack resolves a waiting promise with its number and an error that names a command rejects it with its code; either forgets that command and no other, and changes nothing if the promise does not wait |
| ClientActs.GlobalErrors | clients/packages/harness-protocol/src/client.ts:482-493 | an error that names no command is shown, and exactly the four terminal codes end the client |
| ClientActs.SnapshotPhase | clients/packages/harness-protocol/src/client.ts:400-415 | after a snapshot the client is live exactly if it has reached the snapshot's number; retries start over and the gap on record stays |
| ClientActs.EventAdvances | clients/packages/harness-protocol/src/client.ts:417-440 | the next event moves lastSeq by one, ends the gap on record and makes the client live at the tip; an event seen before changes nothing |
| ClientActs.GapReconnects | clients/packages/harness-protocol/src/client.ts:442-457 | after a gap the socket is gone, and unless the client was closed its timer is set, its phase is reconnecting and one more attempt is counted |
| ClientActs.CloseReconnects | clients/packages/harness-protocol/src/client.ts:369-377 | a close of the socket does nothing to a closed client, means unauthorized with code 1008 or 4001, leaves unauthorized alone, and otherwise arms a retry |
| ClientActs.AttemptResumes | clients/packages/harness-protocol/src/client.ts:324-347 | an attempt keeps the view unless a full resync is due, and has a socket or has armed the next attempt |
| ClientActs.HelloResumes | clients/packages/harness-protocol/src/client.ts:350-359 | a hello carries the position reached by then, and only the client's own socket counts as open |
| ClientActs.ConnectAttempts | clients/packages/harness-protocol/src/client.ts:179-190 | a connect makes an attempt with retries, timer and gap count cleared; a due timer makes one unless the client was closed, and one that is not due does nothing |
| ClientActs.CloseAndReset | clients/packages/harness-protocol/src/client.ts:170-201 | a close ends socket and timer for good and keeps view and outbox; a reset forgets view, gaps and error and keeps socket, timer, outbox and promises |
| HarnessClient.HarnessClient.SetLastSeq | clients/packages/harness-protocol/src/client.ts:164-168 | takes only a greater position |
| HarnessClient.HarnessClient.Reset | clients/packages/harness-protocol/src/client.ts:170-177 | forgets session, gaps and error |
| HarnessClient.HarnessClient.Close | clients/packages/harness-protocol/src/client.ts:192-201 | ends retries and the socket for good |
| HarnessClient.HarnessClient.Connect | clients/packages/harness-protocol/src/client.ts:179-190 | clears retries and the timer, but not the gap on record, and opens a socket |
| HarnessClient.HarnessClient.SendCommand | clients/packages/harness-protocol/src/client.ts:298-309 | refuses at 32 waiting commands, otherwise queues and flushes |
| HarnessClient.HarnessClient.FlushOutbox | clients/packages/harness-protocol/src/client.ts:311-320 | writes the whole outbox in order, when live on an open socket, and nothing otherwise |
| HarnessClient.HarnessClient.OpenNormalSocket | clients/packages/harness-protocol/src/client.ts:324-347 | starts from a new session when a full resync is due; schedules a retry when no socket can be made |
| HarnessClient.HarnessClient.OnClose | clients/packages/harness-protocol/src/client.ts:369-377 | codes 1008 and 4001 end in unauthorized, other closes in a retry |
| HarnessClient.HarnessClient.OnOpen | clients/packages/harness-protocol/src/client.ts:350-359 | the hello carries lastSeq as it is when the socket opens |
| HarnessClient.HarnessClient.OnTimer | clients/packages/harness-protocol/src/client.ts:510-514 | a due retry opens a socket unless the client was closed |
| HarnessClient.HarnessClient.ScheduleReconnect | clients/packages/harness-protocol/src/client.ts:503-515 | arms the timer and counts the attempt, unless the client was closed |
| HarnessClient.HarnessClient.HandleEnvelope | clients/packages/harness-protocol/src/client.ts:381-398 | each kind of frame reaches its handler |
| HarnessClient.HarnessClient.HandleSnapshot | clients/packages/harness-protocol/src/client.ts:400-415 | seeds the view, drops the outbox of another session, keeps the gap streak |
| HarnessClient.HarnessClient.HandleEvent | clients/packages/harness-protocol/src/client.ts:417-440 | ignores duplicates, notes gaps, applies the next event, goes live at the tip |
| HarnessClient.HarnessClient.NoteGap | clients/packages/harness-protocol/src/client.ts:442-457 | counts gaps at one number, escalates at three, drops the socket |
| HarnessClient.HarnessClient.HandleAck | clients/packages/harness-protocol/src/client.ts:473-480 | settles a waiting promise once and forgets its command |
| HarnessClient.HarnessClient.ForgetCommand | clients/packages/harness-protocol/src/client.ts:473-479 | leaves out exactly the commands of that id |
| HarnessClient.HarnessClient.HandleError | clients/packages/harness-protocol/src/client.ts:482-501 | a terminal error ends the client, another global one is shown, one for a command rejects its promise once |
| HarnessClient.HarnessClient.Perform | clients/packages/harness-protocol/src/client.ts:349-398 | any call, timer or socket event is one step of the machine |
| HarnessClient.HarnessClient.LiveThrough | clients/packages/harness-protocol/src/client.ts:102-501 | the object's life under any inputs is a run of the machine that the run theorems are about |
| SyncHub.Hub.Dial | internal/hub/hub.go:249-261 | a hello that names no device or the credential's own opens a connection whose setup has read nothing yet; one that names another is refused and changes nothing |
| SyncHub.Hub.ReadRow | internal/store/store.go:247-253 | the first read of a snapshot takes the cached row as it is then |
| SyncHub.Hub.Register | internal/hub/hub.go:292-307 | under the lock, joins the clients and enqueues the snapshot and then the catch-up in order |
| SyncHub.Hub.EnqueueAll | internal/hub/hub.go:299-306 | the loop offers the catch-up events in order, each accepted or not by itself |
| SyncHub.Hub.HangUp | internal/hub/hub.go:285-290 | the connection leaves the clients, never in the middle of a command |
| SyncHub.Hub.Receive | internal/hub/hub.go:328-335 | a command without an id is refused, one without a key uses its id |
| SyncHub.Hub.ReadLog | internal/store/store.go:255-322 | the second read of a snapshot, which folds the log as it is then |
| SyncHub.Hub.ReadTail | internal/hub/hub.go:268-272 | the catch-up is the log above the hello's lastSeq, as of its own read |
| SyncHub.Hub.Claim | internal/hub/hub.go:337-348 | the first holder of a key goes on, every other gets an ack numbered 0 |
| SyncHub.Hub.Take | internal/hub/hub.go:378-387 | an answer takes its pending entry or is refused as already resolved |
| SyncHub.Hub.Remove | internal/hub/hub.go:378-383 | a pending entry is removed if it is there, and no other |
| SyncHub.Hub.AppendCommand | internal/hub/hub.go:388-396 | the command's event is appended in one transaction, or the client gets a server error and the taken entry stays gone |
| SyncHub.Hub.Abandon | internal/hub/hub.go:393-396 | after a failed append the entry an answer took is in no map |
| SyncHub.Hub.Acknowledge | internal/hub/hub.go:397 | the ack carries the number of the command's event |
| SyncHub.Hub.CopyClients | internal/hub/hub.go:537-542 | the broadcast goes to the clients registered when they are copied |
| SyncHub.Hub.Fan | internal/hub/hub.go:544-546 | one enqueue of the broadcast, to one copied client |
| SyncHub.Hub.Forward | internal/hub/hub.go:399-402 | after the broadcast the agent is called with the command, once; an error it returns goes to the client and does not undo the call |
| SyncHub.Hub.AgentEmits | internal/hub/hub.go:481-489 | the agent's event is appended, or dropped when the store refuses it |
| SyncHub.Hub.FileRequest | internal/hub/hub.go:490-508 | a request or question becomes pending some time after its event was appended |
| SyncHub.Hub.CopyForIngest | internal/hub/hub.go:537-542 | the ingest loop's broadcast goes to the clients registered when they are copied |
| SyncHub.Hub.Spread | internal/hub/hub.go:544-546 | one enqueue of that broadcast, to one copied client |
| SyncHub.Hub.Listen | internal/hub/hub.go:477-481 | the next event is taken only when every copied client was offered the last |
| SyncHub.Hub.Broadcast | internal/hub/hub.go:526-547 | the ingest loop's broadcast, when nothing runs in between: every copied client is offered the event once, in whatever order, and no other connection changes |
| SyncHub.Hub.Perform | internal/hub/hub.go:249-547 | whatever a goroutine does next on the object is one step of the machine |
| SyncHub.Hub.LiveThrough | internal/hub/hub.go:249-547 | goroutines that interleave their steps on the object in any order live through a run of the machine, and the object keeps its streams in shape, its provenance honest and its key and card tokens balanced |
| HubStreams.HubStaysSound | internal/hub/hub.go:249-326 | in every interleaving the log is dense, the session row fits it, and every connection's stream has its shape |
| HubStreams.ConnectionStream | internal/hub/hub.go:263-307 | a queue starts with a snapshot no older than the hello; offered to it were that, exactly the log above the hello's lastSeq as of no earlier than the snapshot, then only acks, errors and genuine events; without overflow it holds all of it, with one a subsequence |
| HubStreams.QueueIsGenuine | internal/hub/hub.go:526-574 | only the first frame of a queue is a snapshot and every event in it is the log's own |
| HubTokens.FirstWriteWins | internal/hub/hub.go:373-434 | in every interleaving, logged resolutions, answers in flight, the pending entry and an unfiled request together never exceed the logged requests; answers given to the agent, whether it took them or failed, or owed to it never exceed the resolutions |
| HubTokens.EveryPrefixResolvesOnce | internal/hub/hub.go:475-509 | every prefix of every reachable log resolves a card at most as often as it asks for it |
| HubTokens.AtMostOnce | internal/hub/hub.go:337-370 | each key puts at most one event in the log and causes at most one call to the agent, failed calls included, never a call without the event |
| HubProvenance.HubStaysHonest | internal/hub/hub.go:350-472 | in every interleaving each logged event says what its own command asked for, each numbered ack names the acked command's event, each agent error is of a logged command, each call repeats a logged command, and an error to a connection carries one of the hub's five codes |
| HubProvenance.AgentHearsWhatIsLogged | internal/hub/hub.go:388-404 | the agent is called only for a logged event, and the logged body, read back field by field, is what the call asks for: its id, decision, text or mode, and the device that sent it |
| HubProvenance.CommandIsLoggedAsSent | internal/hub/hub.go:350-472 | in every interleaving each entry that comes from a command says, field by field, what that command asked for, and names the device that sent it |
| HubProvenance.AckNamesOwnEvent | internal/hub/hub.go:357-366 | an ack with a positive number names an event of the acked device whose body says what the acked command asked for |
| HubProvenance.SlotsAreDistinct | internal/hub/hub.go:337-338 | two commands share a slot exactly when device and key coincide, as device ids, which the host mints as hex strings, have no colon |
| HubProvenance.OneEventPerKey | internal/hub/hub.go:337-348 | no two log entries come from one device's use of one key |
| HubProvenance.OneCallPerEvent | internal/hub/hub.go:366-369 | the agent is called at most once per logged event, failed calls included |
| HubPending.MapTracksLog | internal/hub/hub.go:373-434 | with a fresh id, in every reachable state, an entry is in the hub's map exactly when the log holds it pending and it neither awaits insertion, nor is taken, nor was lost to a failed append |
| HubPending.MapsAgreeAtRest | internal/hub/hub.go:475-508 | with fresh ids and the hub at rest, its maps equal the pending maps of the log, views included, if and only if no answer's append ever failed |
| HubPending.LostStaysPending | internal/hub/hub.go:388-396 | an entry lost to a failed append is, in every later state until its id is used again, pending in the log and not in the map |
| HubWitnesses.AnswerLost | internal/hub/hub.go:378-396 | a run in which a request with a fresh id is lost that way and the hub comes to rest |
| HubWitnesses.ReaskedWhileTaken | internal/hub/hub.go:378-388 | a run in which an id is used again while an answer is on its way: at rest, with nothing lost, the map holds what the log has resolved |
| HubFrames.StepFollows | internal/hub/hub.go:249-512 | no step changes a connection's device, shortens its queue, hands it a command it did not receive, refuses one it did not give up, acks one it was not handling, or frees a claimed key |
| HubRefusals.SlackStep | internal/hub/hub.go:337-396 | what can still become of a key never grows, and shrinks when a claimed command is dropped before its append |
| HubFates.FateStep | internal/hub/hub.go:337-396 | each step keeps that a claimed key of a device is spent on a log entry, held by a handler, or refused to the device |
| HubFates.DeadMeansRefused | internal/hub/hub.go:337-396 | nothing has come or can come of a key exactly when the device was told that the command is refused |
| HubWitnesses.UnsupportedTwice | internal/hub/hub.go:345-348 | a run in which an unsupported command sent twice is refused and then acked with 0, and the log stays empty |
| HubReach.NoClientMissesABroadcast | internal/hub/hub.go:526-547 | in every interleaving, every event logged since a served connection joined was offered to it, unless the ingest loop or a handler still has to copy the clients for it or still has that connection among those copied |
| HubReach.QueueHoldsEverything | internal/hub/hub.go:292-307 | when nothing is on its way, the queue of a served connection that never overflowed holds every event above its hello's lastSeq, but for those logged between its catch-up read and its joining |
| HubReach.EveryLoggedCommandIsAcked | internal/hub/hub.go:397 | in every interleaving, for every entry that comes from a command, a connection of the sending device was offered the ack with that entry's number, or its handler is about to offer it |
| HubProgress.CommandRunsThrough | internal/hub/hub.go:328-472 | from any state in which a served connection is idle, a usable command under an unclaimed key, whose card is pending if it answers one, has steps that log it as sent, ack it with its number, offer the event to every client, call the agent with it once and leave its card in no map |
| HubProgress.EventRunsThrough | internal/hub/hub.go:475-512 | from any state in which the ingest loop listens, an agent's event has steps that log it, file what it asks for and offer it to every client |
| HubAnswers.EveryCommandIsAnswered | internal/hub/hub.go:328-472 | in every interleaving, each command that a connection received is still in its handler's hands, or was answered since by an ack or an error that names it |
| HubAnswers.ReceivedAs | internal/hub/hub.go:328-335 | a command without an id gets the error bad_request; any other is taken up under its own key, or its id if it has none |
| HubAnswers.ReplayIsAcked | internal/hub/hub.go:337-348 | exactly a command whose key was claimed before is acked with 0 and dropped |
| HubAnswers.TurnedDownWhy | internal/hub/hub.go:373-387 | a claimed command is turned down exactly if the host cannot use it or it answers a card that is not pending, and the error code says which |
| HubAnswers.AppendFailureIsTold | internal/hub/hub.go:357-364 | an append that the store refuses is told as server_error and logs nothing; any other logs one event |
| HubAnswers.AgentFailureIsTold | internal/hub/hub.go:367-370 | a call that fails is told as agent_error, and a call that succeeds is not spoken of |
| HubAnswers.HelloIsHeard | internal/hub/hub.go:249-307 | a connection serves the device and position of its hello, and its first frame lists the devices |
| SystemModel.ClientRunsAlone | clients/packages/harness-protocol/src/client.ts:349-398 | in every run of the system, from any reachable hub and restored position, the client lives through a run in which each event is the log's own |
| SystemSync.SyncConvergence | clients/packages/harness-protocol/src/client.ts:400-440 | in every run over one socket at a time, from any reachable hub and any restored position within its log, a live client has reached its tip and shows, register by register, the host's fold of log[..lastSeq] |
| SystemSync.LiveViewIsServerView | internal/store/store.go:246-323 | the same as equalities of status, mode and sets of pending ids |
| SystemSync.StreamIsPrefixOfLog | clients/packages/harness-protocol/src/client.ts:417-457 | in every run, live or not, the client's stream is the fold of exactly log[base..lastSeq], the base being the restored position or 0 |
| SystemSync.ReachableStreamWellKept | clients/packages/harness-protocol/src/reducer.ts:151-374 | in every reachable state items ascend up to lastSeq, have distinct ids and respect the byte bound |
| SystemSync.ReachableStreamRecordsLog | clients/packages/harness-protocol/src/reducer.ts:151-332 | in every reachable state, from any restored position, every item is a faithful record of the log up to lastSeq |
| SystemSync.ReachableStreamStaysFull | clients/packages/harness-protocol/src/client.ts:424-427 | in every reachable state with a stream at its maximum, the next event that adds an item leaves as many, the added one last, and unless it is an error notice only the oldest is gone |
| SystemSync.ClientsOfOneHubAgree | internal/hub/hub.go:526-574 | any two clients fed from one hub's queues, restored at any positions, through overflows, reconnects and broadcasts out of order, have applied exactly log[base..lastSeq], and these pieces agree |
| SystemSockets.ConvergesExactlyWhenGuarded | clients/packages/harness-protocol/src/client.ts:361-440 | over any sockets and from any restored position, a client is on its way to the host's view throughout a run if and only if every snapshot is harmless when it arrives, and no event is applied to a restored position before any snapshot unless it and a new session together show all that the log says |
| SystemSockets.SyncOverAnySockets | clients/packages/harness-protocol/src/client.ts:179-190 | fed from a hub's queues over any number of sockets, from any restored position, with that guard met by each input, a live client shows the host's fold of log[..lastSeq] |
| SystemViews.LiveViewsAreHeld | clients/packages/harness-protocol/src/reducer.ts:126-313 | in every run a live client shows, of every card whose id was used once, exactly the view that the host's fold of log[..lastSeq] holds, and nothing if it holds none |
| SystemCommands.EachCommandOnce | internal/hub/hub.go:333-472 | through any reconnects and resends, a log entry from the device is one of the client's commands, read back as what it asked for, and the only one of that command |
| SystemCommands.PromiseNamesItsEvent | clients/packages/harness-protocol/src/client.ts:473-480 | a promise resolved with n > 0 belongs to the command whose event is entry n, and that entry says what the command asked for |
| SystemCommands.AgentHearsEachCommandOnce | internal/hub/hub.go:365-370 | each issued command calls the agent at most once, failed calls included, with its own request, after an event that says the same |
| SystemCommands.RejectionTellsTheLog | clients/packages/harness-protocol/src/client.ts:494-500 | in the state where a promise is rejected and in every later one, its command is in the log if and only if the error was the agent's |
| SystemCommands.ZeroAckTellsTheLog | internal/hub/hub.go:345-348 | in the state where a promise is resolved with 0 and in every later one, its command is in the log if and only if no handler holds it and the device was not told that it is refused |
| SystemActs.LiveHasSentEverything | clients/packages/harness-protocol/src/client.ts:305-320 | in every run, a client that is live on its link has written every command of its outbox |
| SystemActs.LostLinkIsRetried | clients/packages/harness-protocol/src/client.ts:361-377 | in every run, the client has a socket or a timer that will try for one if and only if the user last asked to connect; while that is so and its link is down, the timer is set unless the client is unauthorized |
| SystemActs.HubErrorsAreNotTerminal | clients/packages/harness-protocol/src/client.ts:482-493 | none of the codes that the hub sends over a served connection ends a client |

## Left out

- SQLite, JSON, WebSocket framing, TLS and goroutine scheduling: a transaction, a lock section or an enqueue
  is one atomic step, and payloads are typed values whose fields are present.
- Commit failures that leave a transaction half done: the database either applies a transaction or refuses it.
- Liveness: an overflow flag races with queued frames in `writeLoop`, and an event missed between the
  catch-up read and registration stays unseen until the next event or reconnect, so the code promises no
  delivery.
- Pairing, authentication and device revocation: randomness, clocks and human approval.
- Backoff delays, sync progress and retry countdowns: arithmetic for display.
- The error frame that a connection gets when its setup or authentication fails: in the model it just ends. The
  client's side of such frames is modelled (`HarnessClient.HarnessClient.HandleError`).
- The agents: an arbitrary source of events, except that it never emits a resolution; neither adapter in the
  repository does.
- A shutdown of the hub while commands are in flight, and a restart, which empties its maps.
- SystemSync.SyncConvergence: the client uses one socket at a time, and the position it has restored is of the
  session the hub serves. `SystemSockets.SyncOverAnySockets` covers any sockets.
- SystemSync.LiveViewIsServerView: says nothing of a card whose id is the empty string, which the client
  ignores in events and keeps in snapshots; of views, `SystemViews.LiveViewsAreHeld` covers ids used once.
- Two clients that share one device id, as two tabs of a browser do: the system has one client a device, and
  other devices do as they please.
- SystemCommands.EachCommandOnce: the device has not used the hub before the run begins, so commands of an
  earlier start of the same app are not followed up.
- SyncHub.Hub.AgentEmits: an agent's own resolution event, which the source would append, does nothing here.
- SyncHub.Hub.Broadcast: only without steps of other goroutines between the enqueues; with them a broadcast is
  `SyncHub.Hub.Fan` or `SyncHub.Hub.Spread` in any order.
- HarnessClient.HarnessClient.LiveThrough: a position is restored only at the start, and `pair()` is left out.
- The phases `pairing` and `error` of the client: the first belongs to pairing, the second is never entered.
- ClientRuns.PrefixSafety: up to the device names shown for answers, which come from snapshots.
- Cards.CardsRefineAutomaton: without trimming, which may drop the item of a pending card.
- Tools.ToolsRefineStack: without trimming, which may drop an unfinished tool.
- HubTokens.AtMostOnce: keys live as long as the hub; a restarted hub accepts a key again.
- Text.ClampText: the branch for platforms without `TextEncoder`, which counts code units.
- Identifiers are drawn fresh: a draw that repeats an issued id is not a step of the client.

Where code and comments disagree the model follows the code. `clampText` keeps the head of the text, though
its comment speaks of the most recent output (`clients/packages/harness-protocol/src/reducer.ts:352`). The
architecture notes say that there is no offline command queue (`docs/ARCHITECTURE.md:68`), while the client
queues up to 32 commands in every phase. The cached status is called fresh
(`internal/store/store.go:202`), but an error of its update is ignored.
