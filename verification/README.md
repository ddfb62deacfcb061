# Proofs about event forwarding, the remote client, analytics and the developer scripts

This project models the parts of the repository whose correctness is hardest to see by reading and proves,
for every input, every run and every interleaving, what they are meant to guarantee.

* **EventForwarder**: the bounded queue between the in-process runtime and its consumer. Worker and consumer
  are one machine whose atomic actions are the channel operations of both sides. The class `Forwarder` is the
  worker as the source writes it; its methods perform only runs of that machine.
* **RemoteProtocol**, **RemoteWorker**: the worker that owns the websocket. What each caller is told, what goes
  on the wire and what the client reads are specified from the sequence of inputs alone (`Outcome`, `Written`,
  `Stream`) and proved of the worker. The class `Worker` takes exactly these steps. The handshake is a loop.
* **AnalyticsModel**: the reducer, specified one map at a time (`Next…`, `Emitted`). **AnalyticsReducer** holds
  the class that updates seven maps in place and is proved to agree. **AnalyticsThreads**, **AnalyticsRequests**,
  **AnalyticsItems**, **AnalyticsReviews**, **AnalyticsTurns** and **AnalyticsOrder** hold the theorems over whole runs; **AnalyticsQueue** is the
  whole path from facts to requests.
* **AcceptedLines**: the diff summariser, against diffs printed from a structure of files and hunks.
* **Batching**, **Dedupe**: how events are packed into requests and kept from repeating.
* **ValidateScope**: which crates a validation run covers. **WrapperArgs**: the lint wrapper's argument parser
  against a grammar. **Subreason**: truncation of UTF-8 error messages.

`dafny verify dfyconfig.toml` checks everything.

Two promises turn out to hold only under a condition, and the condition is proved exact:

* A turn that has all it needs can be left waiting. The reducer looks at a turn only when one of five facts
  about it arrives, so a connection initialized late, a thread that becomes known late or a diff that moves the
  turn to a known thread does not emit it. `AnalyticsOrder.WaitingExactly` says when this happens, `LateInitialize` gives a family of
  such runs, and `NoneWaits` gives the order of facts under which it never does.
* Completing the lint wrapper's arguments twice is completing them once unless the manifest path put in is `--`;
  `WrapperArgs.BuildIdempotent` is an equivalence.

The documentation of `forward_in_process_event` says that a dropped server request is rejected. The code also
loses the one event in flight when it finds the consumer gone, server request or not; the model follows the
code and the theorems say so. Its counter saturates; the theorems carry the drops that could no longer be
counted and show that there are none below 2^64 inputs.

## Model

| member | source | states |
|---|---|---|
| `EventForwarder.DeliveryTheorem` | codex-rs/app-server-client/src/lib.rs:156-278 | In every interleaving the enqueued events are the input, in order, with only lag reports, server requests and best-effort notifications removed; input = delivered + reported + still counted (+ one in flight); a delivered event's input index is the events and reported drops before it; below 2^64 inputs no drop goes uncounted; the queue stays within capacity. |
| `EventForwarder.EnqueuedExactlyOnce` | codex-rs/app-server-client/src/lib.rs:212-278 | An input was enqueued once, unchanged, exactly if it was not dropped. |
| `EventForwarder.RequestsAnswered` | codex-rs/app-server-client/src/lib.rs:236-277 | Exactly the token refresh requests are refused, each once; server requests taken = refused + failed as overload + enqueued, each exactly once and in order; the only exception is the event in flight when the consumer is found closed. |
| `EventForwarder.BlockedOnlyByConsumer` | codex-rs/app-server-client/src/lib.rs:156-221 | The worker waits exactly with a notification of the lossless tier on a full open queue; lag reports, requests and best-effort notifications never wait; one receive or the consumer's close frees it. |
| `EventForwarder.ActionKeepsInvariant` | codex-rs/app-server-client/src/lib.rs:212-278 | Every action of worker or consumer keeps the accounting of routes and counts. |
| `EventForwarder.RunKeepsInvariant` | codex-rs/app-server-client/src/lib.rs:504-605 | So does every run. |
| `EventForwarder.Forwarder.constructor` | codex-rs/app-server-client/src/lib.rs:497-507 | A new worker is the machine's initial state with capacity at least one. |
| `EventForwarder.Forwarder.AwaitChannel` | codex-rs/app-server-client/src/lib.rs:225-262 | Before a lossless send there is room, the channel is closed, or the consumer never moves again. |
| `EventForwarder.Forwarder.DropEvent` | codex-rs/app-server-client/src/lib.rs:243-275 | A drop is counted with saturation and a dropped request is failed back. |
| `EventForwarder.Forwarder.FlushMarker` | codex-rs/app-server-client/src/lib.rs:222-254 | The lag marker is sent and the counter reset, or the event is dropped and settled, or the stream is closed. |
| `EventForwarder.Forwarder.SendEvent` | codex-rs/app-server-client/src/lib.rs:257-277 | The event is enqueued or dropped, with exactly one fate, or the stream is closed. |
| `EventForwarder.Forwarder.ForwardEvent` | codex-rs/app-server-client/src/lib.rs:212-278 | Continue means that the event got exactly one fate, enqueued if it is a notification of the lossless tier; only such an event waits; a closed stream leaves it without a fate; the steps taken are a run of the machine. |
| `EventForwarder.Forwarder.OnRuntimeEvent` | codex-rs/app-server-client/src/lib.rs:556-602 | The worker's event branch is a run of the machine that takes exactly this event. |
| `RemoteProtocol.EveryCallerToldOnce` | codex-rs/app-server-client/src/remote.rs:208-467 | Over every run each dequeued command is told its outcome exactly once and nothing else: for a request the first answer with its id after it, the duplicate or write error, or the exit error; nothing is pending at exit. |
| `RemoteProtocol.OneWaiter` | codex-rs/app-server-client/src/remote.rs:218-229 | At most one command waits under an id. |
| `RemoteProtocol.DuplicateHarmless` | codex-rs/app-server-client/src/remote.rs:222-228 | A request under an outstanding id is refused; the first waiter, the map and the wire are untouched. |
| `RemoteProtocol.WireTheorem` | codex-rs/app-server-client/src/remote.rs:229-310 | The wire carries exactly the accepted requests and the other successful writes, in order. |
| `RemoteProtocol.UnknownRequestsRejected` | codex-rs/app-server-client/src/remote.rs:353-372 | The -32601 replies on the wire are exactly the undecodable server requests whose write succeeded, in order. |
| `RemoteProtocol.LostRejectionEnds` | codex-rs/app-server-client/src/remote.rs:354-387 | A rejection that cannot be written ends the connection: nothing is read or dequeued afterwards. |
| `RemoteProtocol.StoppedForGood` | codex-rs/app-server-client/src/remote.rs:212-467 | After the input that stops the worker only the client acts. |
| `RemoteProtocol.ClientStream` | codex-rs/app-server-client/src/remote.rs:312-455 | What next_event yields is a prefix of one event per known notification or request, with its content, in wire order, handshake first, then at most one Disconnected, which is last; all of it once the buffers are empty. |
| `RemoteProtocol.DecodedMirrors` | codex-rs/app-server-client/src/remote.rs:326-352 | Every notification and request the typed protocol knows becomes one event with its content, in order, and no other frame does. |
| `RemoteProtocol.EndingFrames` | codex-rs/app-server-client/src/remote.rs:353-455 | Frame by frame: with which error everybody who waits is told, and with which cause a listening client, when a frame ends the connection. |
| `RemoteProtocol.HarmlessFrames` | codex-rs/app-server-client/src/remote.rs:313-455 | With a listening client no other frame ends it. |
| `RemoteProtocol.StepKeepsInvariant` | codex-rs/app-server-client/src/remote.rs:212-455 | Every input keeps the waiter map, the replies and the exit state equal to what the run specifies. |
| `RemoteProtocol.RunInvariant` | codex-rs/app-server-client/src/remote.rs:208-467 | So does every run. |
| `RemoteWorker.InitializeRemoteConnection` | codex-rs/app-server-client/src/remote.rs:798-933 | The handshake passes exactly over notifications, foreign answers, other frames and requests known or rejected; it buffers one event per known notification or request, rejects each unknown request once, and ends in the kind its deciding frame, the writes or the timeout dictate, with the version the response names. |
| `RemoteWorker.VersionExactly` | codex-rs/app-server-client/src/remote.rs:833-840 | The server version is the first whitespace-delimited word after the first slash of the user agent, and there is one exactly if such a word exists. |
| `RemoteWorker.DrainWaiters` | codex-rs/app-server-client/src/remote.rs:459-467 | Whatever the order of the map, every waiter is told the exit error once. |
| `RemoteWorker.Worker.constructor` | codex-rs/app-server-client/src/remote.rs:206-211 | The initial state, with the handshake's events buffered. |
| `RemoteWorker.Worker.Leave` | codex-rs/app-server-client/src/remote.rs:459-467 | Leaving the loop tells all waiters the recorded or the default error. |
| `RemoteWorker.Worker.HandleRequest` | codex-rs/app-server-client/src/remote.rs:220-253 | A request is refused as a duplicate, registered and written, or, if the write fails, taken out and told before the connection fails. |
| `RemoteWorker.Worker.HandleCommand` | codex-rs/app-server-client/src/remote.rs:214-310 | The command branch is the specified step: each write result is what its caller is told, and shutdown leaves the loop. |
| `RemoteWorker.Worker.SendersDropped` | codex-rs/app-server-client/src/remote.rs:215-218 | The end of the command channel is the specified step. |
| `RemoteWorker.Worker.HandleServerRequest` | codex-rs/app-server-client/src/remote.rs:338-389 | A server request is forwarded, rejected, or fails the connection. |
| `RemoteWorker.Worker.HandleEnd` | codex-rs/app-server-client/src/remote.rs:390-453 | Each frame that ends the connection gives its own cause. |
| `RemoteWorker.Worker.HandleFrame` | codex-rs/app-server-client/src/remote.rs:312-455 | The frame branch is the specified step: an answer releases the waiter with its id, a known notification or request reaches a listening client with its content or ends the loop. |
| `RemoteWorker.Worker.NextEvent` | codex-rs/app-server-client/src/remote.rs:603-608 | The handshake's events come before those of the worker. |
| `RemoteWorker.Worker.Hangup` | codex-rs/app-server-client/src/remote.rs:942-952 | The client dropping its end is the specified step; later deliveries fail. |
| `RemoteWorker.Session` | codex-rs/app-server-client/src/remote.rs:188-478 | From the first handshake frame to the end of any sequence of inputs: a worker exists exactly if the initialize response was reached and the writes succeeded, it performs a legal run, and the client reads a prefix of all decoded server messages in wire order, then at most one Disconnected, which is last. |
| `AnalyticsThreads.RunWired` | codex-rs/analytics/src/reducer.rs:499-550 | In every reachable state known threads have metadata and registered connections. |
| `AnalyticsThreads.OnlyMissingConnections` | codex-rs/analytics/src/reducer.rs:1489-1525 | A context lookup fails exactly for unknown or connectionless threads; the two other warnings are dead. |
| `AnalyticsThreads.ContextIsForever` | codex-rs/analytics/src/reducer.rs:1187-1216 | A thread with full context keeps it for the rest of the run. |
| `AnalyticsThreads.InheritOne` | codex-rs/analytics/src/reducer.rs:524-550 | A subagent of a thread with context has context, with its parent's connection unless it had its own. |
| `AnalyticsThreads.ContextInherited` | codex-rs/analytics/src/reducer.rs:524-550 | Full context reaches the end of every chain of subagents, whatever facts stand between the starts or follow. |
| `AnalyticsThreads.ConnectionStays` | codex-rs/analytics/src/reducer.rs:541-546 | Only opening a connected thread again gives it another connection. |
| `AnalyticsThreads.ConnectionInherited` | codex-rs/analytics/src/reducer.rs:524-550 | The root's connection reaches the end of a chain of subagents of any length, with any facts between the starts, if none had a connection of its own and none is opened again. |
| `AnalyticsThreads.MetadataTracked` | codex-rs/analytics/src/reducer.rs:524-550 | The known threads are those opened on a registered connection or started as subagents, with the metadata of the last opening or of the first start. |
| `AnalyticsThreads.ThreadReports` | codex-rs/analytics/src/reducer.rs:1187-1258 | Openings are reported exactly on registered connections, subagent starts always, compactions and guardian reviews exactly for connected threads, each with what its fact says. |
| `AnalyticsRequests.RequestsTracked` | codex-rs/analytics/src/reducer.rs:575-604 | The remembered client requests are those sent and not answered since, with what was sent last. |
| `AnalyticsRequests.MatchedExactly` | codex-rs/analytics/src/reducer.rs:793-814 | A start or steer response matches exactly an open request of its own kind. |
| `AnalyticsRequests.ConnectionsTracked` | codex-rs/analytics/src/reducer.rs:499-522 | The registered connections are those initialized, as they were last. |
| `AnalyticsRequests.SteersExactly` | codex-rs/analytics/src/reducer.rs:1302-1366 | A steer is reported exactly when a response or an error ends an open steer request of a registered connection and a known thread, with that request's thread and expected turn, accepted under the response's turn or rejected. |
| `AnalyticsRequests.EndedOnce` | codex-rs/analytics/src/reducer.rs:1020-1068 | No request is ended twice, so no steer is reported twice. |
| `AnalyticsItems.StartedTracked` | codex-rs/analytics/src/reducer.rs:1076-1092 | The remembered start of an item is that of its last valid start, unless it completed since in a turn with a record. |
| `AnalyticsItems.ConsumesExactly` | codex-rs/analytics/src/reducer.rs:1093-1142 | A completion uses up its item's reviews exactly if the item started, the time is valid, the turn has a record and the thread a connection. |
| `AnalyticsItems.ToolEventsExactly` | codex-rs/analytics/src/reducer.rs:1093-1142 | It is reported exactly if moreover the item is over, or a search or an image, with the item's last start, its own time and its reviews; nothing else reports a tool item. |
| `AnalyticsReviews.SummariesAreFigures` | codex-rs/analytics/src/reducer.rs:1368-1433 | A tool item's review summary is the fold of its reviews since it was last used up: user reviews of commands without network context and of file changes, guardian reviews of commands, execve calls, patches and MCP calls, of exactly that thread, turn and item. |
| `AnalyticsReviews.ToolEventFigures` | codex-rs/analytics/src/reducer.rs:1093-1142 | Every tool item event carries that fold: count = guardian + user, last outcome, both flags; then the fold starts anew. |
| `AnalyticsReviews.RecordKeepsFigures` | codex-rs/analytics/src/reducer.rs:1416-1433 | Recording a review extends the fold by exactly that review. |
| `AnalyticsReviews.PendingReviewsTracked` | codex-rs/analytics/src/reducer.rs:819-933 | The pending approvals are those asked for and neither settled nor overwritten, with the subject and flags each kind of request asks for. |
| `AnalyticsReviews.ConcludesExactly` | codex-rs/analytics/src/reducer.rs:1999-2182 | Each answer, abort and finished guardian review concludes exactly one review, for the item, with the outcome and flags its request or action and its decision give. |
| `AnalyticsReviews.SettledOnce` | codex-rs/analytics/src/reducer.rs:935-1018 | No registration is settled twice. |
| `AnalyticsReviews.UserReviewEvents` | codex-rs/analytics/src/reducer.rs:935-1018 | A user review event is the only one of its fact, reports the approval that fact settles, and the status and resolution of its decision. |
| `AnalyticsReviews.SettledIsReported` | codex-rs/analytics/src/reducer.rs:1368-1414 | A settled approval is reported exactly if its thread has a connection. |
| `AnalyticsReviews.GuardianIsReported` | codex-rs/analytics/src/reducer.rs:1260-1300 | So is a finished guardian review, with its status and the subject of its action. |
| `AnalyticsReviews.OneReviewPerRegistration` | codex-rs/analytics/src/reducer.rs:935-1018 | Two user review events never stem from one registration. |
| `AnalyticsReviews.ApprovalsConserved` | codex-rs/analytics/src/reducer.rs:819-1018 | Registered = pending + resolved + overwritten by a reused id. |
| `AnalyticsTurns.RecordIsDigest` | codex-rs/analytics/src/reducer.rs:606-653 | A turn's record holds, field by field, the last value shown since the fact that created it, and exact counts over that period; before that fact there was no record, after it there always was. |
| `AnalyticsTurns.CountersAreExact` | codex-rs/analytics/src/reducer.rs:1093-1106 | A turn's total is the sum of its seven kinds and counts exactly the tracked completions, and steer_count the accepted steers, since the fact that created its record; what came while it had no record is not counted. |
| `AnalyticsTurns.TurnEventBacked` | codex-rs/analytics/src/reducer.rs:1435-1487 | Every turn event's payload, field by field and counters included, is what the facts since the one that created its record showed last, with the connection of the last start response and the metadata of its thread. |
| `AnalyticsTurns.LineEventBacked` | codex-rs/analytics/src/reducer.rs:2352-2380 | The turn event is followed by one event with the numbers of lines its last diff added and deleted, and by none if there is no diff or both are zero. |
| `AnalyticsTurns.FreshEvidence` | codex-rs/analytics/src/reducer.rs:1435-1487 | Between two events of one turn id lie a new matched start response, config, profile and completion. |
| `AnalyticsTurns.TurnEventsOnly` | codex-rs/analytics/src/reducer.rs:1435-1487 | Turn events come from a ready turn, first in their fact's output, and from nothing else. |
| `AnalyticsOrder.OrderIndependence` | codex-rs/analytics/src/reducer.rs:793-808 | Whatever the order of the four facts, and whatever unrelated facts and optional facts of the turn come between them, there is exactly one turn event, on the last of the four, with the same required fields; without optional facts before it, the very same events. |
| `AnalyticsOrder.PreparedExample` | codex-rs/analytics/src/reducer.rs:499-522 | Initializing a connection, opening a thread on it and sending turn/start leads to a state those orders start from. |
| `AnalyticsOrder.WaitingAfter` | codex-rs/analytics/src/reducer.rs:1435-1487 | Exactly when a ready turn waits after one more fact. |
| `AnalyticsOrder.WaitingExactly` | codex-rs/analytics/src/reducer.rs:1435-1487 | In every run a ready turn waits if and only if its context came late and nothing made the reducer look since. |
| `AnalyticsOrder.LateInitialize` | codex-rs/analytics/src/reducer.rs:499-522 | A turn whose connection is initialized after its four facts is left waiting. |
| `AnalyticsOrder.LateContextExample` | codex-rs/analytics/src/reducer.rs:524-550 | The starting states of those runs are reachable. |
| `AnalyticsOrder.NoneWaits` | codex-rs/analytics/src/reducer.rs:1435-1487 | When connections and threads are registered before a turn is tied to them, no reachable state holds a ready turn waiting. |
| `AnalyticsReducer.Reducer.constructor` | codex-rs/analytics/src/reducer.rs:133-142 | A new reducer is empty. |
| `AnalyticsReducer.Reducer.ThreadContext` | codex-rs/analytics/src/reducer.rs:1489-1525 | The lookup gives the context or what is missing. |
| `AnalyticsReducer.Reducer.MaybeEmitTurnEvent` | codex-rs/analytics/src/reducer.rs:1435-1487 | A turn is emitted and removed exactly when it is ready. |
| `AnalyticsReducer.Reducer.IngestTurnResolvedConfig` | codex-rs/analytics/src/reducer.rs:606-619 | Gives the record thread, images and config, creating it if missing, and emits the turn exactly if that completes it; no other map changes. |
| `AnalyticsReducer.Reducer.IngestTurnTokenUsage` | codex-rs/analytics/src/reducer.rs:621-631 | Gives the record thread and usage, and emits the turn exactly if it is ready then. |
| `AnalyticsReducer.Reducer.IngestTurnProfile` | codex-rs/analytics/src/reducer.rs:633-642 | Gives the record its profile, and emits the turn exactly if that completes it. |
| `AnalyticsReducer.Reducer.IngestTurnCodexError` | codex-rs/analytics/src/reducer.rs:644-653 | Gives the record its error, and a thread only if it has none; emits nothing, even if the turn is ready. |
| `AnalyticsReducer.Reducer.IngestTurnStarted` | codex-rs/analytics/src/reducer.rs:1150-1156 | Gives the record its start time, none for a negative one; emits nothing. |
| `AnalyticsReducer.Reducer.IngestTurnDiffUpdated` | codex-rs/analytics/src/reducer.rs:1157-1161 | Gives the record thread and diff; emits nothing, even if the turn is ready then. |
| `AnalyticsReducer.Reducer.IngestTurnCompleted` | codex-rs/analytics/src/reducer.rs:1162-1182 | Gives the record its completion, and emits the turn exactly if that completes it. |
| `AnalyticsReducer.Reducer.IngestTurnStartResponse` | codex-rs/analytics/src/reducer.rs:793-808 | Uses up the request; only a turn/start request ties the turn to it and may emit the turn. |
| `AnalyticsReducer.Reducer.EmitTurnSteerEvent` | codex-rs/analytics/src/reducer.rs:1327-1366 | A steer is reported exactly if its connection and thread are known. |
| `AnalyticsReducer.Reducer.IngestTurnSteerResponse` | codex-rs/analytics/src/reducer.rs:1302-1325 | Uses up the request; a steer counts for an existing record only and is reported under its own thread. |
| `AnalyticsReducer.Reducer.IngestErrorResponse` | codex-rs/analytics/src/reducer.rs:1020-1068 | Uses up the request; only a rejected steer is reported. |
| `AnalyticsReducer.Reducer.EmitThreadInitialized` | codex-rs/analytics/src/reducer.rs:1187-1236 | Registers and reports the thread exactly if the connection is registered. |
| `AnalyticsReducer.Reducer.IngestSubagentThreadStarted` | codex-rs/analytics/src/reducer.rs:524-550 | Keeps a known connection and metadata, otherwise inherits the connection of the parent; always reports the thread. |
| `AnalyticsReducer.Reducer.IngestServerRequest` | codex-rs/analytics/src/reducer.rs:819-933 | Registers the review with subject and flags of its kind of approval, unless the start time is negative. |
| `AnalyticsReducer.Reducer.RecordItemReviewSummary` | codex-rs/analytics/src/reducer.rs:1416-1433 | The summary of the item gains exactly this review. |
| `AnalyticsReducer.Reducer.EmitReviewEvent` | codex-rs/analytics/src/reducer.rs:1368-1414 | The review is counted before the context check, and reported only with context. |
| `AnalyticsReducer.Reducer.SettleReview` | codex-rs/analytics/src/reducer.rs:935-1018 | Any answer or abort takes the pending review out, counts it and reports it as the user verdict; an unknown id changes nothing. |
| `AnalyticsReducer.Reducer.IngestGuardianReviewCompleted` | codex-rs/analytics/src/reducer.rs:1260-1300 | Counts and reports a finished guardian review with valid times; anything else changes nothing. |
| `AnalyticsReducer.Reducer.IngestItemStarted` | codex-rs/analytics/src/reducer.rs:1076-1092 | Remembers the start of a tracked item with a valid time, and nothing else. |
| `AnalyticsReducer.Reducer.IngestItemCompleted` | codex-rs/analytics/src/reducer.rs:1093-1142 | At each early return: the count is kept, the start is used up, and the review summary is used up only with valid time and context, event or not. |
| `AnalyticsReducer.Reducer.IngestCompaction` | codex-rs/analytics/src/reducer.rs:1238-1258 | Reported exactly with full context; no map changes. |
| `AnalyticsReducer.Reducer.IngestGuardianReview` | codex-rs/analytics/src/reducer.rs:552-573 | Reported exactly with full context; no map changes. |
| `AnalyticsReducer.Reducer.EmitEach` | codex-rs/analytics/src/reducer.rs:655-757 | Stateless facts become one event per entry, in order. |
| `AnalyticsReducer.Reducer.Ingest` | codex-rs/analytics/src/reducer.rs:380-497 | One fact changes the seven maps and gives the events as specified, so the theorems over runs hold of the reducer. |
| `AnalyticsQueue.Process` | codex-rs/analytics/src/client.rs:64-71 | Facts in, requests out: every emitted event is sent once and in order, no request is empty, accepted-line events travel alone. |
| `AcceptedLines.AcceptLine` | codex-rs/analytics/src/accepted_lines.rs:40-80 | The source's conditions, in its order, move the parser as specified. |
| `AcceptedLines.NormalizeExactly` | codex-rs/analytics/src/accepted_lines.rs:165-177 | An added line is effective exactly if, with its whitespace squeezed to single spaces and none at the ends, it has more than three bytes and a letter, digit or underscore; that text, the only one with its visible characters and gaps, is the result. |
| `AcceptedLines.EffectiveExactly` | codex-rs/analytics/src/accepted_lines.rs:63-73 | An effective line of a file with a path gives one fingerprint, of that path and that text; any other line none. |
| `AcceptedLines.PathExactly` | codex-rs/analytics/src/accepted_lines.rs:151-163 | A path inside any whitespace: none for /dev/null, otherwise the path without its a/ or b/. |
| `AcceptedLines.AcceptedLineFingerprints` | codex-rs/analytics/src/accepted_lines.rs:30-83 | The loop over lines computes the specified summary. |
| `AcceptedLines.PrintedDiffSummary` | codex-rs/analytics/src/accepted_lines.rs:30-83 | For every git diff printed from files and hunks the summary counts the added and deleted body lines and fingerprints the effective added ones in order, even when body lines look like headers. |
| `AcceptedLines.SummaryAdds` | codex-rs/analytics/src/accepted_lines.rs:30-83 | The summary of two parts is the sum of their summaries when the second starts at a `diff --git ` line. |
| `AcceptedLines.SummaryNeedsLineBoundary` | codex-rs/analytics/src/accepted_lines.rs:41-51 | Without the line boundary the sum law can fail: a family of diffs whose open hunk swallows the next header. |
| `AcceptedLines.SwallowedHeaderExample` | codex-rs/analytics/src/accepted_lines.rs:41-51 | One such diff. |
| `AcceptedLines.CountsOfSummary` | codex-rs/analytics/src/accepted_lines.rs:30-83 | The two counts do not depend on the hash or on the table of letters. |
| `AcceptedLines.ScanIgnoresCr` | codex-rs/analytics/src/accepted_lines.rs:30-83 | A carriage return before the line end changes nothing. |
| `AcceptedLines.FilesScan` | codex-rs/analytics/src/accepted_lines.rs:30-83 | From any parser state, the lines of printed files add exactly their sums. |
| `Batching.TrackEventRequestBatches` | codex-rs/analytics/src/client.rs:427-448 | The batches keep all events in order, none is empty, isolated events are alone, and no such partition has fewer. |
| `Batching.FewestBatches` | codex-rs/analytics/src/client.rs:427-448 | No order-preserving partition that isolates those events is smaller, and only this one is as small. |
| `Batching.BatchesWellFormed` | codex-rs/analytics/src/events.rs:85-89 | Concatenation gives back the events; accepted-line events are alone; no batch is empty. |
| `Dedupe.AcceptancesConserved` | codex-rs/analytics/src/client.rs:86-117 | The set never exceeds 4096 keys, and acceptances = 4096 times the clears + the keys held. |
| `Dedupe.AcceptedExactly` | codex-rs/analytics/src/client.rs:86-117 | A call is accepted if and only if its key was not used since the set was last emptied. |
| `Dedupe.ClearBetween` | codex-rs/analytics/src/client.rs:86-117 | A key is accepted again only after a clear in between. |
| `Dedupe.AtMostOncePerClear` | codex-rs/analytics/src/client.rs:98-101 | A key's acceptances are at most the clears, plus one if it is held. |
| `Dedupe.RepeatBound` | codex-rs/analytics/src/client.rs:47-117 | After T acceptances no key was accepted more than 1 + (T - 1) / 4096 times. |
| `Dedupe.Queue.constructor` | codex-rs/analytics/src/client.rs:73-77 | Both sets start empty. |
| `Dedupe.Queue.ShouldEnqueueAppUsed` | codex-rs/analytics/src/client.rs:86-102 | An app without connector is always accepted and leaves no trace; otherwise the call is one more in the sequence the theorems speak of. |
| `Dedupe.Queue.ShouldEnqueuePluginUsed` | codex-rs/analytics/src/client.rs:104-117 | The same for plugins. |
| `ValidateScope.BuildDependents` | scripts/validate.py:188-196 | The map holds exactly the workspace crates that directly depend on each workspace crate. |
| `ValidateScope.Visit` | scripts/validate.py:200-205 | The unselected dependents of a crate are selected and pushed, each once. |
| `ValidateScope.WorkspaceRdeps` | scripts/validate.py:174-206 | The worklist terminates, pushes each crate at most once and returns the least set with the changed crates closed under direct dependents, whatever the pop order: every workspace package that names a selected crate as a dependency is in it; without metadata the changed crates. |
| `ValidateScope.LeastIsTransitive` | scripts/validate.py:174-206 | That set holds exactly the crates that transitively depend on a changed one. |
| `ValidateScope.OwningCrate` | scripts/validate.py:129-145 | The walk finds the nearest ancestor manifest that names a package, or there is none. |
| `ValidateScope.OwnerIsUnique` | scripts/validate.py:129-145 | A file has one nearest owner. |
| `ValidateScope.Classify` | scripts/validate.py:148-171 | The crates are exactly the owners of the changed files; the workspace is needed exactly when a root file or an unattributable one changed. |
| `ValidateScope.RootFilesExactly` | scripts/validate.py:44-53 | The files that concern the whole workspace, one by one. |
| `ValidateScope.SelectScope` | scripts/validate.py:274-294 | Every changed codex-rs file has its nearest owner selected or the whole workspace is; exactly when it is the workspace; otherwise nothing but the owners and, on demand, their transitive dependents. |
| `WrapperArgs.TakeLintArg` | tools/argument-comment-lint/wrapper_common.py:76-101 | One lint argument sets the flags and the expectation the grammar gives it. |
| `WrapperArgs.ParseWrapperArgs` | tools/argument-comment-lint/wrapper_common.py:55-103 | The state machine computes the grammar: split at the first separator, options with values, dangling options select nothing. |
| `WrapperArgs.ValueOptions` | tools/argument-comment-lint/wrapper_common.py:76-101 | Which selection each option with a value makes. |
| `WrapperArgs.DanglingOptions` | tools/argument-comment-lint/wrapper_common.py:76-101 | Without its value such an option selects nothing. |
| `WrapperArgs.OtherArguments` | tools/argument-comment-lint/wrapper_common.py:76-101 | Which selections any other argument makes by itself. |
| `WrapperArgs.AllTargetsExactly` | tools/argument-comment-lint/wrapper_common.py:22-33 | All targets are added exactly if the user neither fixes nor names a target, option by option. |
| `WrapperArgs.BuildFinalArgs` | tools/argument-comment-lint/wrapper_common.py:106-122 | The defaults go in front, the target selection after the cargo arguments. |
| `WrapperArgs.ArgsSurvive` | tools/argument-comment-lint/wrapper_common.py:55-122 | Parsed again, the built arguments hold the user's lint and cargo arguments in order, with the flags of user and defaults together. |
| `WrapperArgs.BuildIdempotent` | tools/argument-comment-lint/wrapper_common.py:55-122 | Building, parsing and building again gives the same list if and only if the manifest path put in is not `--`. |
| `WrapperArgs.SeparatorGrows` | tools/argument-comment-lint/wrapper_common.py:110-111 | With a manifest path `--` one more round makes the list longer and again finds no manifest path. |
| `WrapperArgs.EveryRoundGrows` | tools/argument-comment-lint/wrapper_common.py:55-122 | So every further round makes it longer, without end. |
| `Subreason.SubreasonBounded` | codex-rs/analytics/src/facts.rs:189-216 | The subreason of a valid UTF-8 message is valid, at most 512 bytes, the message if it fits, otherwise the longest whole-character prefix of at most 509 bytes and three dots, at least 509 bytes long. |
| `Subreason.CharsExactly` | codex-rs/analytics/src/facts.rs:194-207 | What counts as one character: exactly the encodings of Unicode scalar values in section 3 of RFC 3629. |
| `Subreason.FloorCharBoundary` | codex-rs/analytics/src/facts.rs:200-203 | The last position up to the index that is not inside a character. |
| `Subreason.CutExactly` | codex-rs/analytics/src/facts.rs:200-207 | A valid text may be cut exactly before bytes that are not tails. |
| `Subreason.CharNear` | codex-rs/analytics/src/facts.rs:200-203 | A character starts within three bytes before any position. |

## Left out

- The in-process worker's command branch, its shutdown and the detached request tasks: they only hand results through.
- Websocket, TLS, Unix socket, HTTP and serde code: frames arrive decoded, and every write may fail.
- Timeouts and clocks as real time: a handshake whose frames run out stands for the timeout; times in facts are inputs.
- Error message texts, endpoint names and log output.
- RemoteWorker.InitializeRemoteConnection: the writes of the initialize request and the initialized notification are two booleans, and looking up `userAgent` in the response is a foreign call.
- Most payload fields of analytics events (durations, names, triggers, steer results and rejection reasons, model and sandbox fields, skill ids, repository hashes): they are copied from the facts or from foreign calls.
- `AnalyticsFact` variants that only pass events through (skills, apps, hooks, plugins) share one stateless fact that lists its events.
- Client requests other than turn start and turn steer, and notifications the reducer ignores: they change nothing.
- Overflow of the reducer's counters at the machine's integer width.
- SHA-1 fingerprints, the Unicode table of letters and digits, and git lookups: parameters or left out.
- AcceptedLines.PrintedDiffSummary: printed lines must hold no line feed, which no line of a diff does.
- The sending of batches, authentication, and the bound of the analytics queue, which drops facts when it is full.
- Dedupe.Queue.ShouldEnqueueAppUsed: each call is atomic, as under the lock; lock poisoning is ignored in the source and here.
- Changed-file collection with git, manifest parsing and cargo itself: `ValidateScope` takes files, manifests and metadata as inputs; paths are sequences of components, and the selected crates are a set rather than a sorted argument list.
- The validation tiers' commands, target directories and output.
- The rest of the lint wrapper (environment flags, toolchain lookup, library names).
- The app-server daemon, the agent graph store, agent identity, packaging and build scripts.
