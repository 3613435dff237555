# qubit — a verified model of its core logic

This project models, in Dafny, the parts of the qubit quantum-circuit
workbench that hold state and rules rather than I/O:

- **`Hub`** models the WebSocket pub-sub hub `ConnectionManager`: connections,
  one session per connection, and rooms with symmetric membership. Sends are
  recorded, and failed sends disconnect.
- **`SquanderClient`** models the partitioning client: the progress-line parser,
  how streamed command output is classified, the `is_connected` guards, and
  the phase order of a partition run.
- **`Email`** models the e-mail verification codes: bounded attempts, expiry and
  single use.
- **`JobStore`** and **`MessageBus`** model the front-end job queue and the message
  router that drives it.
- **`CircuitDag`** (the pure definitions) and **`CircuitDagHook`** (the
  imperative hook) model the gate dependency graph: `injectGate`, `ejectGate`,
  `moveGate`, `removeGate` and depth recalculation.
- **`Gates`**, **`CircuitUtils`** and **`Renderer`** model gate qubit utilities,
  depth shifting and the placement collision rules.
- **`Qasm`** models the OpenQASM 2.0 serialiser.
- **`CircuitStore`**, **`ComposerStore`**, **`ProjectsStore`** and
  **`CollaborationStore`** model the circuit, composer, project and
  collaboration stores, including grouping and ungrouping sub-circuits.
- **`QubitkitGate`** and **`QubitkitCircuit`** model the `qubitkit` package's
  `Gate` and `Circuit`: validating setters, and the parent/child dependency
  builder with its caches.
- **`Convert`** models the converter's gate registry and its `add_gate`
  dispatch.
- **`EditGateDialog`** models the gate editing dialog's qubit swap and its
  re-injection of the edited gate.

Shared helpers:
- `Wrappers` provides `Option` and `Result`.
- `JsMap` is an insertion-ordered map with JavaScript `Map` semantics.
- `Text` covers decimal numerals, ASCII lower-casing and whitespace
  stripping.
- `Sequences` defines `Array.prototype.filter` and proves that it keeps
  the chosen elements in their original order.

Where the source updates state in place, the model is a class. Each of its
methods is specified by a pure transition function on a state datatype, and
the lemmas are stated about those functions. Clocks, generated ids, random
codes, transport outcomes and foreign-library results are passed in as
parameters.

## Model

| member | source | states |
|---|---|---|
| Hub.Disconnected | backend/app/services/websocket_manager.py:72-84 | an unknown id changes nothing; otherwise the id leaves the connections, the sessions and every room, exactly the rooms it alone occupied disappear, every remaining room keeps its other members, no room is added, every other session is unchanged, and the membership invariant is kept |
| Hub.DisconnectAsWrittenAgrees | backend/app/services/websocket_manager.py:72-84 | the source's own steps (drop the id from each room its session lists, deleting a room left empty, then drop the session and the connection) give exactly `Disconnected` whenever the membership invariant holds |
| Hub.Connected | backend/app/services/websocket_manager.py:46-61 | the id is registered with a fresh session in no room and is in no room afterwards; an id not yet registered leaves the rooms as they were; the invariant is kept |
| Hub.Join | backend/app/services/websocket_manager.py:97-105 | an unknown connection gets false and no change; otherwise the result is true exactly when the id was not yet a member, the room becomes its old members (none if it was missing) plus the id, the session lists the room as well, no other room or session changes, and the invariant is kept |
| Hub.Leave | backend/app/services/websocket_manager.py:117-125 | the result is true exactly when the id was a member; then the session drops the room, the room keeps its other members and disappears exactly when the id was its only member; a non-member changes nothing; no other room or session changes, and the invariant is kept |
| Hub.LeaveKeepsOthers | backend/app/services/websocket_manager.py:119-123 | every other member of a room a connection leaves is still in that room in the result of `Leave` |
| Hub.RoomTargets | backend/app/services/websocket_manager.py:145-156 | a missing room has no targets; otherwise the targets are exactly the room's members other than the excluded one |
| Hub.AllTargets | backend/app/services/websocket_manager.py:160-169 | the targets are exactly the connections other than the excluded one |
| Hub.StatsOf | backend/app/services/websocket_manager.py:193-212 | the connection and session totals agree, the active ids are exactly the connections, the room total counts the rooms, each room is counted with its (non-zero) member count, and each connection's activity entry carries that session's sent-message count |
| Hub.JoinTwice | backend/app/services/websocket_manager.py:102-115 | a first join reports true, a second reports false and changes nothing |
| Hub.JoinThenLeave | backend/app/services/websocket_manager.py:97-135 | leaving a room just joined reports true and restores the room table |
| Hub.DisconnectIdempotent | backend/app/services/websocket_manager.py:72-84 | disconnecting twice is disconnecting once |
| Hub.DeliverSingle | backend/app/services/websocket_manager.py:214-223 | a send that fails is a disconnect; one that succeeds counts one more message sent on that session |
| Hub.ConnectionManager.LeaveAllRooms | backend/app/services/websocket_manager.py:75-81 | the loop over the session's rooms takes the id out of each and deletes the rooms it empties, leaving connections and sessions untouched |
| Hub.ConnectionManager.Disconnect | backend/app/services/websocket_manager.py:72-95 | the new state is `Disconnected` of the old; a known id schedules one USER_DISCONNECTED update with the new connection count, an unknown id schedules nothing |
| Hub.ConnectionManager.SendSafe | backend/app/services/websocket_manager.py:214-223 | a failing send disconnects the id and delivers nothing, scheduling one USER_DISCONNECTED update with the new connection count if the id was still connected and nothing otherwise; a successful one delivers the message, increments that session's sent counter and schedules nothing |
| Hub.DisconnectNotices | backend/app/services/websocket_manager.py:86-93 | one USER_DISCONNECTED update per dropped id, in order, the i-th carrying the connection count left after the first i+1 removals |
| Hub.ConnectionManager.Fanout | backend/app/services/websocket_manager.py:151-171 | every target that does not fail gets the message exactly once, in some order; each failing target that was connected is disconnected and announced by exactly one scheduled USER_DISCONNECTED update, in the order they were dropped, each carrying the connection count after its removal; nothing is scheduled when no target fails; the state is `Deliver` of the old one |
| Hub.ConnectionManager.BroadcastToRoom | backend/app/services/websocket_manager.py:145-158 | delivers to exactly the non-failing `RoomTargets` and schedules one USER_DISCONNECTED update per failing one, with the falling connection count; a missing room sends and schedules nothing |
| Hub.ConnectionManager.BroadcastToAll | backend/app/services/websocket_manager.py:160-171 | delivers to exactly the non-failing `AllTargets` and schedules one USER_DISCONNECTED update per failing one, with the falling connection count |
| Hub.ConnectionManager.SendMessage | backend/app/services/websocket_manager.py:137-143 | the result is false with no change and nothing scheduled for an unknown id; a known id gets the payload, or, if its send fails, is disconnected, receives nothing and is announced by one scheduled USER_DISCONNECTED update with the new connection count |
| Hub.ConnectionManager.Connect | backend/app/services/websocket_manager.py:46-70 | the id is the caller's unless it is absent or empty, else the generated one; the id is registered as in `Connected`; then every other connection that does not fail is sent one USER_CONNECTED update carrying the new connection count, each once, and nothing else is sent; each failing one is disconnected and announced by one scheduled USER_DISCONNECTED update; the invariant is kept |
| Hub.ConnectionManager.JoinRoom | backend/app/services/websocket_manager.py:97-115 | the result is `Join`'s; on a new membership every other non-failing member is sent one USER_JOINED_ROOM update naming the room, each once, and nothing else, and each failing member is announced by one scheduled USER_DISCONNECTED update; otherwise the state is `Join`'s and nothing is sent or scheduled |
| Hub.ConnectionManager.LeaveRoom | backend/app/services/websocket_manager.py:117-135 | the result is `Leave`'s; on a removal every remaining non-failing member is sent one USER_LEFT_ROOM update naming the room, each once, and nothing else, and each failing member is announced by one scheduled USER_DISCONNECTED update; otherwise the state is `Leave`'s and nothing is sent or scheduled |
| Hub.ConnectAsWrittenBreaksSymmetry | backend/app/services/websocket_manager.py:46-61 | for the source's `connect` on an id that is already in a room, the membership invariant fails afterwards |
| Hub.ReconnectLeaksRoom | backend/app/services/websocket_manager.py:46-84 | after the source's reconnect and the source's own disconnect steps (`DisconnectAsWritten`), the room still lists the departed id, never empties, and the membership invariant fails |
| SquanderClient.FindPercent | backend/app/services/squander_client.py:158-160 | the leftmost match, from a position on, of a digit run followed by `%` (an optional bracket on either side does not change the captured digits): a found match is a percent match and none starts earlier; nothing found means no match at all |
| SquanderClient.FindCount | backend/app/services/squander_client.py:162-166 | the leftmost match of `digits/digits`: a found match is one and none starts earlier; nothing found means no match at all |
| SquanderClient.FirstPercentUnique | backend/app/services/squander_client.py:158 | the leftmost percent match is unique, so the captured digits are well defined |
| SquanderClient.FirstCountUnique | backend/app/services/squander_client.py:162 | the leftmost count match is unique |
| SquanderClient.ParseProgressMeaning | backend/app/services/squander_client.py:156-168 | a line with a percent match reports the digits of the leftmost one; without one, a line with a count match reports current*100/total truncated, or nothing when the total is zero; a line with neither reports nothing |
| SquanderClient.CountProgressBounded | backend/app/services/squander_client.py:162-166 | a count whose current part does not exceed a positive total reports a progress of at most 100 |
| SquanderClient.LogEvents | backend/app/services/squander_client.py:113-122 | there is at most one event per output line and every event is a plain log line |
| SquanderClient.LogEventsShape | backend/app/services/squander_client.py:114-122 | every log event carries a non-empty, stripped message and the progress parsed from that message |
| SquanderClient.LogEventsAppend | backend/app/services/squander_client.py:113-122 | the events of two consecutive chunks of output are the events of the first followed by those of the second |
| SquanderClient.LogEventsIndexed | backend/app/services/squander_client.py:113-122 | the events correspond, in order, one to one with the output lines that are non-empty once stripped, each event being that line's log event |
| SquanderClient.StreamOutput | backend/app/services/squander_client.py:99-153 | not connected: no events and a not-connected error; a failed exec or read yields no events and an execution error with the source's message; a finished run yields the log events of its stdout lines, then a `[WARNING]` log of stderr when the status is zero and stderr is non-empty, and fails with "Command failed: " and stderr exactly when the status is non-zero |
| SquanderClient.PartitionRunShape | backend/app/services/squander_client.py:194-412 | a partition run yields at least two events, exactly one terminal event and that one last, and it ends in `complete` exactly when the connection and every step succeed |
| SquanderClient.PartitionRunPhases | backend/app/services/squander_client.py:205-400 | the phases announced are a prefix of preparing, uploading, building, downloading, cleanup, and all of them when the run succeeds |
| SquanderClient.Client.constructor | backend/app/services/squander_client.py:28-31 | a new client is not connected |
| SquanderClient.Client.Connect | backend/app/services/squander_client.py:33-67 | the client is connected exactly when the SSH handshake succeeded; a failure is reported as an SSH connection error carrying the reason |
| SquanderClient.Client.Disconnect | backend/app/services/squander_client.py:69-75 | a successful close leaves the client disconnected; a close that raises leaves the state as it was |
| SquanderClient.Client.ExecuteCommand | backend/app/services/squander_client.py:79-97 | not connected: a not-connected error; otherwise the command's output, or an execution error carrying the reason |
| SquanderClient.Client.Transfer | backend/app/services/squander_client.py:170-192 | upload and download: not connected gives a not-connected error; otherwise the transfer fails exactly when the SFTP call raised, with the source's message for that direction |
| SquanderClient.Client.CollectLogs | backend/app/services/squander_client.py:113-122 | the worker's loop over stdout builds exactly `LogEvents` of the lines |
| SquanderClient.Client.StreamCommandOutput | backend/app/services/squander_client.py:99-153 | the events and the error are those of `StreamOutput` |
| SquanderClient.Client.RunPartition | backend/app/services/squander_client.py:194-412 | the events are those of `PartitionEvents` for the connection and step outcomes |
| Email.Issue | backend/app/core/email.py:27-32 | the address gets a fresh entry: the code, an expiry ten minutes on and no attempts; every other address keeps its entry |
| Email.Verify | backend/app/core/email.py:61-80 | succeeds exactly when a code is stored for the address, it has not expired, fewer than three attempts were used and it matches; success, expiry and exhausted attempts remove the entry; a wrong code counts one attempt; other addresses are untouched |
| Email.Unexpired | backend/app/core/email.py:82-90 | exactly the entries whose expiry is not yet past are kept, unchanged |
| Email.AttemptsStayBounded | backend/app/core/email.py:70-75 | issuing, verifying and cleaning up never raise an entry's attempts above three |
| Email.LockoutAfterThreeAttempts | backend/app/core/email.py:70-75 | after three wrong codes even the right one is refused, and the entry is gone |
| Email.ThreeTriesGranted | backend/app/core/email.py:70-80 | three tries are granted: the issued code is accepted on the first try, and still after one or two wrong guesses, each of which is refused |
| Email.CodeIsSingleUse | backend/app/core/email.py:77-79 | a code that verified once is refused afterwards |
| Email.ReissueResetsAttempts | backend/app/core/email.py:28-73 | an address locked out by attempts can verify again once a new code is issued |
| Email.ExpiredStaysRefused | backend/app/core/email.py:66-69 | an expired code is refused, and so is every later try |
| Email.CodeStore.constructor | backend/app/core/email.py:11-12 | the code store starts empty |
| Email.CodeStore.SendVerificationEmail | backend/app/core/email.py:18-59 | the store becomes `Issue` of the old one with the test code `12345` in testing or the generated code otherwise; the code is returned unless the provider failed outside testing, which is reported after the code was stored |
| Email.CodeStore.VerifyCode | backend/app/core/email.py:61-80 | the result and the new store are those of `Verify` |
| Email.CodeStore.CleanupExpiredCodes | backend/app/core/email.py:82-90 | the loop over the expired addresses leaves exactly `Unexpired` of the old store |
| JobStore.Enqueue | frontend/src/stores/jobStore.ts:21-35 | the job is stored as pending, with no updates and no error, under its id (appended to the order when new, in place when not); nothing else changes; the version goes up by one |
| JobStore.SetToastId | frontend/src/stores/jobStore.ts:37-50 | an unknown job leaves the state alone; a known one gets the toast id and nothing else changes |
| JobStore.AddUpdate | frontend/src/stores/jobStore.ts:52-79 | an unknown job or a duplicate update (same type, phase and message, no more than 100 ms newer) leaves the state alone; otherwise the update is appended and the status follows its type |
| JobStore.SetJobError | frontend/src/stores/jobStore.ts:81-95 | a known job becomes failed with the error; an unknown one changes nothing |
| JobStore.CompleteJob | frontend/src/stores/jobStore.ts:97-110 | a known job becomes complete; an unknown one changes nothing |
| JobStore.Dequeue | frontend/src/stores/jobStore.ts:112-118 | the job is gone from the queue and the order, and the version goes up, whether or not it was there |
| JobStore.GetJob | frontend/src/stores/jobStore.ts:120-123 | a job is found exactly when its id is queued, and it is the queued job |
| JobStore.CircuitJobs | frontend/src/stores/jobStore.ts:125-128 | the queued jobs of the circuit filtered in queue order, which by `FilterInOrder` keeps exactly those jobs in their relative order |
| JobStore.EnqueuedJobComesLast | frontend/src/stores/jobStore.ts:125-128 | a newly enqueued job is last among its circuit's jobs, after the earlier ones in their order |
| JobStore.AddUpdateIdempotent | frontend/src/stores/jobStore.ts:59-66 | delivering the same update twice is delivering it once |
| JobStore.StatusFollowsLastUpdate | frontend/src/stores/jobStore.ts:66-75 | after an accepted update the job's last update is that one, and its status is complete exactly when the update is a completion |
| JobStore.Store.constructor | frontend/src/stores/jobStore.ts:17-19 | the queue starts empty at version 0 |
| JobStore.Store.EnqueueJob | frontend/src/stores/jobStore.ts:21-35 | the store's state becomes `Enqueue` of the old one |
| JobStore.Store.SetJobToastId | frontend/src/stores/jobStore.ts:37-50 | the state becomes `SetToastId` of the old one |
| JobStore.Store.AddJobUpdate | frontend/src/stores/jobStore.ts:52-79 | the state becomes `AddUpdate` of the old one |
| JobStore.Store.SetError | frontend/src/stores/jobStore.ts:81-95 | the state becomes `SetJobError` of the old one |
| JobStore.Store.Complete | frontend/src/stores/jobStore.ts:97-110 | the state becomes `CompleteJob` of the old one |
| JobStore.Store.DequeueJob | frontend/src/stores/jobStore.ts:112-118 | the state becomes `Dequeue` of the old one |
| MessageBus.Route | frontend/src/hooks/useMessageBus.ts:24-49 | a message without job id or type changes nothing; `error` fails the job with the message or "Unknown error"; `cancelled` dequeues it; `phase`, `log` and `complete` add an update, `complete` then completing the job; any other type changes nothing |
| MessageBus.ProgressAppends | frontend/src/hooks/useMessageBus.ts:36-45 | a phase or log message for a queued job appends its update (kind, phase, message, progress, result, the current time) and marks the job running, bumping the version once, unless the update repeats a recent one, when nothing changes; the job keeps its place |
| MessageBus.CompletionCompletes | frontend/src/hooks/useMessageBus.ts:36-48 | a completion message for a queued job appends its update unless it repeats a recent one, then leaves the job complete; no other job changes and the order is kept |
| MessageBus.ErrorFails | frontend/src/hooks/useMessageBus.ts:32-33 | an error message fails a queued job with the message (or "Unknown error") and keeps its updates |
| MessageBus.CancelRemoves | frontend/src/hooks/useMessageBus.ts:34-35 | a cancellation removes the job from the queue |
| MessageBus.RouteTouchesOneJob | frontend/src/hooks/useMessageBus.ts:24-49 | every job other than the message's own is left as it was |
| MessageBus.Calls | frontend/src/hooks/useMessageBus.ts:51-57 | one invocation per listener, in registration order, each marked as throwing or not |
| MessageBus.Bus.constructor | frontend/src/hooks/useMessageBus.ts:15 | the bus starts with no listeners and no invocations |
| MessageBus.Bus.AddListener | frontend/src/hooks/useMessageBus.ts:17-18 | a listener is added once: adding a present one changes nothing |
| MessageBus.Bus.RemoveListener | frontend/src/hooks/useMessageBus.ts:19-21 | the unsubscribe function removes exactly that listener |
| MessageBus.Bus.Broadcast | frontend/src/hooks/useMessageBus.ts:24-58 | the store becomes `Route` of the old one; an accepted message reaches every listener in order, a throwing one not stopping the rest; a rejected one reaches none |
| Gates.CreateQubitArrays | frontend/src/features/gates/utils.ts:3-12 | an n-qubit gate placed at a start qubit gets the last of the n contiguous qubits as its target and the ones before it, in order, as its controls |
| Gates.InvolvedQubits | frontend/src/features/gates/utils.ts:14-16 | the controls followed by the targets: a qubit is involved exactly when it is a control or a target |
| Gates.CreatedGateIsContiguous | frontend/src/features/gates/utils.ts:3-24 | a gate given the qubits of `CreateQubitArrays` involves exactly the contiguous range, and its span runs from the start qubit to start + n - 1 |
| Gates.QubitSpan | frontend/src/features/gates/utils.ts:18-24 | a gate with no qubits has no span; otherwise the span's ends are involved qubits and every involved qubit lies between them |
| Gates.OverlapsMeaning | frontend/src/features/gates/utils.ts:26-30 | two gates overlap exactly when some qubit is involved in both, and overlap is symmetric |
| CircuitUtils.GatesToShift | frontend/src/features/circuit/utils.ts:4-15 | exactly the ids of gates, other than the excluded one, at or after the target depth that touch one of the target qubits |
| CircuitUtils.GatesToShiftInOrder | frontend/src/features/circuit/utils.ts:4-15 | the ids come in list order: the ids picked from a list split in two are those of the first part followed by those of the second |
| CircuitUtils.ShiftGates | frontend/src/features/circuit/utils.ts:17-24 | every listed gate moves one column in the given direction and changes in nothing else; every other gate is unchanged |
| CircuitUtils.ShiftRoundTrip | frontend/src/features/circuit/utils.ts:17-24 | shifting right and then left (or left then right) restores the gates |
| CircuitUtils.ShiftClearsSlot | frontend/src/features/circuit/utils.ts:4-24 | after shifting the selected gates right, each moved one column, and no gate other than the excluded one is left at the target depth on a target qubit |
| Qasm.QasmName | frontend/src/lib/qasm/converter.ts:57-69 | a template has an OpenQASM name exactly when its lower-cased id is in the gate table, and the name is the table's |
| Qasm.GateLine | frontend/src/lib/qasm/converter.ts:54-92 | a gate gives a line exactly when its id is known and it is a rotation, a single-target gate or a two-target swap; the line starts with the OpenQASM name |
| Qasm.SortQubit | frontend/src/lib/qasm/converter.ts:24-25 | a gate is sorted by its smallest involved qubit |
| Qasm.SortItems | frontend/src/lib/qasm/converter.ts:22-27 | the items are a permutation of the placed items, ordered by depth and then by qubit |
| Qasm.CircuitToQASM | frontend/src/lib/qasm/converter.ts:4-52 | the loop builds the header, the body lines of the sorted items and the measurement footer, joined by newlines |
| Qasm.MeasuredBelow | frontend/src/lib/qasm/converter.ts:44-48 | the qubits below the bound whose measurement flag is set, in increasing order |
| Qasm.MeasureLinesExactly | frontend/src/lib/qasm/converter.ts:42-48 | the program measures qubit i exactly when i is below the bound and flagged, and the measure lines come in qubit order |
| Qasm.QasmDeclaresCreg | frontend/src/lib/qasm/converter.ts:16-19 | the classical register is declared exactly when some qubit is measured |
| Qasm.QasmMeasures | frontend/src/lib/qasm/converter.ts:16-48 | the program holds the measure line of qubit i exactly when some qubit is measured, i is below the qubit count and i is flagged |
| Qasm.BodyLinesAreBody | frontend/src/lib/qasm/converter.ts:29-40 | no gate or nested-circuit line can be mistaken for a register or measurement line |
| Qasm.GateLineOffset | frontend/src/lib/qasm/converter.ts:33-59 | a nested circuit's gate at an offset is written as the gate with its qubits shifted by the offset |
| Qasm.GateLineOperands | frontend/src/lib/qasm/converter.ts:54-92 | the operands of each printed line: a rotation prints its angle and its target, a ccx with two controls prints both controls then the target, another controlled gate its first control then its target, a swap its two targets, any other gate its single target, every qubit shifted by the offset |
| Qasm.QasmLinesSingle | frontend/src/lib/qasm/converter.ts:9-49 | with template names free of line breaks, every line of the program is one line |
| Qasm.JoinLineCount | frontend/src/lib/qasm/converter.ts:51-100 | splitting the joined text on newlines gives back as many lines as were joined |
| Qasm.QasmWithMetadata | frontend/src/lib/qasm/converter.ts:94-105 | the gate count is the number of placed items, the depth is one more than the deepest item (0 for none) |
| Qasm.MetadataLines | frontend/src/lib/qasm/converter.ts:99-100 | the reported line count is the number of program lines |
| Qasm.SampleColumnOrder | frontend/src/lib/qasm/__tests__/converter.test.ts:51-73 | in a column an X on qubit 0 is written before an H on qubit 1 even when placed after it |
| Qasm.SampleControlledLine | frontend/src/lib/qasm/__tests__/converter.test.ts:32-43 | a CNOT with control 0 and target 1 is written `cx q[0], q[1];` |
| CircuitDag.GatesMapOf | frontend/src/features/circuit/hooks/useCircuitDAG.ts:7-9 | the copied map is keyed by gate id and holds exactly the ids of the list |
| CircuitDag.GatesMapOfOrder | frontend/src/features/circuit/hooks/useCircuitDAG.ts:7-9 | for gates with distinct ids, the map keeps the list's order and its values are the list again |
| CircuitDag.MaxParentDepthMeaning | frontend/src/features/circuit/hooks/useCircuitDAG.ts:17-18 | the value is at least the depth of every parent present in the map, and is either -1 or the depth of one of them (missing parents count as -1) |
| CircuitDag.Relevel | frontend/src/features/circuit/hooks/useCircuitDAG.ts:15-18 | the gate's depth becomes one more than its deepest parent's; no other gate and no key changes |
| CircuitDag.RecalcDepthsOnly | frontend/src/features/circuit/hooks/useCircuitDAG.ts:11-22 | recalculating from a gate changes depths only: ids, templates, qubits and edges of every gate stay as they were |
| CircuitDag.RecalcFrame | frontend/src/features/circuit/hooks/useCircuitDAG.ts:11-22 | a gate not reachable from the starting gate along child edges keeps its entry |
| CircuitDag.RecalcSetsDepth | frontend/src/features/circuit/hooks/useCircuitDAG.ts:15-21 | when the recursion does not come back to the gate or its parents, the gate ends one deeper than its deepest parent, and a gate with no parents ends at depth 0 |
| CircuitDag.RankIsEnough | frontend/src/features/circuit/hooks/useCircuitDAG.ts:11-22 | on a map ranked acyclic, a recursion bound at least the starting gate's rank lets the recursion follow every child edge |
| CircuitDag.GateCountIsEnough | frontend/src/features/circuit/hooks/useCircuitDAG.ts:11-22 | on a map ranked below its gate count, the gate count is enough recursion for any starting gate |
| CircuitDag.ReachedClosed | frontend/src/features/circuit/hooks/useCircuitDAG.ts:19-21 | with enough recursion the visited gates are closed under child edges, so every descendant is visited |
| CircuitDag.RecalcLevels | frontend/src/features/circuit/hooks/useCircuitDAG.ts:11-22 | on a map whose parents list their children and which is ranked acyclic, with enough recursion every visited gate ends one deeper than its deepest parent |
| CircuitDag.RecalcAllLevels | frontend/src/features/circuit/hooks/useCircuitDAG.ts:19-21 | the same for recalculating a list of gates in turn: every gate reached from any of them ends one deeper than its deepest parent |
| CircuitDag.RecalcFromRank | frontend/src/features/circuit/hooks/useCircuitDAG.ts:11-22 | from a gate of such a map with recursion at least its rank: the gate and all its descendants are visited and levelled, and every other gate keeps its entry |
| CircuitDag.ScanFindsNearestParent | frontend/src/features/circuit/hooks/useCircuitDAG.ts:39-51 | for each qubit of the new gate, the recorded parent is an earlier gate on that qubit with no deeper earlier gate on it, and one is recorded exactly when such a gate exists |
| CircuitDag.ScanFindsNearestChild | frontend/src/features/circuit/hooks/useCircuitDAG.ts:39-60 | for each qubit, the recorded child is a gate at or after the new gate's depth on that qubit with none shallower, and one is recorded exactly when such a gate exists |
| CircuitDag.UnbridgeCuts | frontend/src/features/circuit/hooks/useCircuitDAG.ts:62-68 | the direct edge between the nearest parent and child on a shared qubit is removed in both directions |
| CircuitDag.InjectAddsGate | frontend/src/features/circuit/hooks/useCircuitDAG.ts:24-91 | the result is keyed by id, holds the old ids plus the new one, and changes the old gates in nothing but depth and edges |
| CircuitDag.InjectStoresGate | frontend/src/features/circuit/hooks/useCircuitDAG.ts:32-36 | the new gate is stored as given except for its depth and edges |
| CircuitDag.InjectAppends | frontend/src/features/circuit/hooks/useCircuitDAG.ts:88-90 | for a new id, the returned list is the old list in order followed by the new gate |
| CircuitDag.InjectLinksNewGate | frontend/src/features/circuit/hooks/useCircuitDAG.ts:70-86 | the new gate's parents and children are the nearest gates found, without repetition, and each of them links back to it |
| CircuitDag.InjectParentsAreNearest | frontend/src/features/circuit/hooks/useCircuitDAG.ts:39-72 | every parent of the injected gate is a nearest earlier gate on one of its qubits, and every qubit with an earlier gate has its nearest one among the parents |
| CircuitDag.InjectChildrenAreNearest | frontend/src/features/circuit/hooks/useCircuitDAG.ts:39-81 | the same for children and the nearest later gates |
| CircuitDag.AttachKeepsOldEdges | frontend/src/features/circuit/hooks/useCircuitDAG.ts:73-86 | linking the new gate adds or removes no edge between two old gates |
| CircuitDag.InjectDropsBridgedEdge | frontend/src/features/circuit/hooks/useCircuitDAG.ts:62-68 | after injection the old parent and child around the new gate on a qubit are no longer linked to each other |
| CircuitDag.InjectAtEndDepth | frontend/src/features/circuit/hooks/useCircuitDAG.ts:88-89 | a gate placed after everything on its qubits has no children, sits one past its deepest parent, and leaves every other depth as it was |
| CircuitDag.EjectRemovesGate | frontend/src/features/circuit/hooks/useCircuitDAG.ts:93-132 | the ejected id leaves the map and the key order; every other gate keeps everything but depth and edges |
| CircuitDag.EjectKeepsOrder | frontend/src/features/circuit/hooks/useCircuitDAG.ts:130-131 | the returned list is the input without the ejected id, in order |
| CircuitDag.EjectDropsReferences | frontend/src/features/circuit/hooks/useCircuitDAG.ts:100-116 | when the edges are symmetric, no remaining gate names the ejected gate as parent or child |
| CircuitDag.EjectReconnects | frontend/src/features/circuit/hooks/useCircuitDAG.ts:100-129 | each child of the ejected gate that shares a qubit with one of its parents is linked under the deepest such parent after the ejection |
| CircuitDag.EjectLastSeenCollides | frontend/src/features/circuit/hooks/useCircuitDAG.ts:100-111 | as written (the last listed parent wins on each qubit), a concrete four-gate circuit ends with the child in the same column as the deeper parent on their shared qubit |
| CircuitDag.EjectDeepestSeparates | frontend/src/features/circuit/hooks/useCircuitDAG.ts:100-129 | with the deepest parent kept, the same circuit puts the child one column after that parent |
| CircuitDag.Find | frontend/src/features/circuit/hooks/useCircuitDAG.ts:140-157 | a gate is found exactly when some gate carries the id, and it carries that id |
| CircuitDag.FindFirst | frontend/src/features/circuit/hooks/useCircuitDAG.ts:140-157 | the gate found is the first with that id |
| CircuitDag.RemoveGateIds | frontend/src/features/circuit/hooks/useCircuitDAG.ts:153-160 | removing an absent id returns the input; otherwise exactly that id leaves the list, the rest in order |
| CircuitDag.MoveGateIds | frontend/src/features/circuit/hooks/useCircuitDAG.ts:134-151 | moving an absent id returns the input; otherwise the gate moves to the end of the list, the rest in order |
| CircuitDag.InjectHasGate | frontend/src/features/circuit/hooks/useCircuitDAG.ts:88-90 | the returned list holds the injected gate with its template and qubits |
| CircuitDag.MoveGatePlaces | frontend/src/features/circuit/hooks/useCircuitDAG.ts:143-150 | after a move the gate is in the list with its template and the new qubits |
| CircuitDagHook.CreateGatesMap | frontend/src/features/circuit/hooks/useCircuitDAG.ts:7-9 | the loop builds `GatesMapOf` of the gates |
| CircuitDagHook.MaxDepthOfParents | frontend/src/features/circuit/hooks/useCircuitDAG.ts:17-18 | the loop computes `MaxParentDepth`: at least -1 and at least every present parent's depth |
| CircuitDagHook.RelevelGate | frontend/src/features/circuit/hooks/useCircuitDAG.ts:15-18 | computes `Relevel` |
| CircuitDagHook.RecalculateDepth | frontend/src/features/circuit/hooks/useCircuitDAG.ts:11-22 | the recursive method computes `Recalc` |
| CircuitDagHook.RecalculateChildren | frontend/src/features/circuit/hooks/useCircuitDAG.ts:19-21 | the loop over the children computes `RecalcAll` |
| CircuitDagHook.ScanGates | frontend/src/features/circuit/hooks/useCircuitDAG.ts:39-60 | the loop over the gates computes `Scan` |
| CircuitDagHook.UnbridgeGates | frontend/src/features/circuit/hooks/useCircuitDAG.ts:62-68 | the loop over the recorded parents computes `Unbridge` |
| CircuitDagHook.CollectIds | frontend/src/features/circuit/hooks/useCircuitDAG.ts:71-81 | the ids of the recorded gates, each once: an id is collected exactly when some recorded gate has it |
| CircuitDagHook.LinkParentGates | frontend/src/features/circuit/hooks/useCircuitDAG.ts:73-77 | computes `LinkParents` |
| CircuitDagHook.LinkChildGates | frontend/src/features/circuit/hooks/useCircuitDAG.ts:82-86 | computes `LinkChildren` |
| CircuitDagHook.InjectGate | frontend/src/features/circuit/hooks/useCircuitDAG.ts:24-91 | computes `Inject`; a new id makes the list one longer |
| CircuitDagHook.DetachParentGates | frontend/src/features/circuit/hooks/useCircuitDAG.ts:100-111 | the parents loop computes `DetachParents` with the deepest parent kept per qubit |
| CircuitDagHook.ReattachQubits | frontend/src/features/circuit/hooks/useCircuitDAG.ts:118-127 | the loop over a child's shared qubits computes `Reattach` |
| CircuitDagHook.ReattachChildGates | frontend/src/features/circuit/hooks/useCircuitDAG.ts:112-129 | the children loop computes `ReattachChildren` |
| CircuitDagHook.EjectGate | frontend/src/features/circuit/hooks/useCircuitDAG.ts:93-132 | computes `Eject`; with distinct ids the result is the input without the gate's id, in order |
| CircuitDagHook.FindGate | frontend/src/features/circuit/hooks/useCircuitDAG.ts:140 | computes `Find`: nothing exactly when no gate has the id |
| CircuitDagHook.RemoveGate | frontend/src/features/circuit/hooks/useCircuitDAG.ts:153-160 | computes `Removed`; an absent id returns the input |
| CircuitDagHook.MoveGate | frontend/src/features/circuit/hooks/useCircuitDAG.ts:134-151 | computes `Moved`; an absent id returns the input |
| CircuitStore.Initial | frontend/src/features/circuit/store/CircuitStoreContext.tsx:36-41 | a fresh circuit has no gates, the default number of qubits, every qubit measured and nested circuits collapsed |
| CircuitStore.AfterAddQubit | frontend/src/features/circuit/store/CircuitStoreContext.tsx:81-85 | one more qubit, its measurement flag set, the existing flags and gates untouched |
| CircuitStore.OffQubit | frontend/src/features/circuit/store/CircuitStoreContext.tsx:92-94 | exactly the placed gates that do not touch the qubit are kept |
| CircuitStore.OffQubitInOrder | frontend/src/features/circuit/store/CircuitStoreContext.tsx:92-94 | the result is the source's `filter`: by `FilterInOrder`, the gates not touching the qubit in their original order |
| CircuitStore.AfterRemoveQubit | frontend/src/features/circuit/store/CircuitStoreContext.tsx:86-96 | a single qubit is never removed; otherwise a nested circuit among the items raises the `TypeError`, and else the last qubit, its flag and exactly the gates touching it are dropped |
| CircuitStore.AfterRemoveQubitInOrder | frontend/src/features/circuit/store/CircuitStoreContext.tsx:86-96 | a removal that succeeds keeps the gates not touching the last qubit in their original order |
| CircuitStore.AddThenRemove | frontend/src/features/circuit/store/CircuitStoreContext.tsx:81-96 | adding a qubit and removing it again restores the state |
| CircuitStore.RemoveQubitKeepsShape | frontend/src/features/circuit/store/CircuitStoreContext.tsx:86-96 | removing a qubit keeps one flag per qubit and every gate on an existing qubit |
| CircuitStore.AddQubitKeepsShape | frontend/src/features/circuit/store/CircuitStoreContext.tsx:81-85 | adding a qubit keeps one flag per qubit and every gate on an existing qubit |
| CircuitStore.Toggled | frontend/src/features/circuit/store/CircuitStoreContext.tsx:97-102 | the flag at the index is flipped (a position past the end counts as unset and the gap reads as unset), every other flag is unchanged |
| CircuitStore.ToggleTwice | frontend/src/features/circuit/store/CircuitStoreContext.tsx:97-102 | toggling a flag twice restores the flags |
| CircuitStore.ToggleKeepsShape | frontend/src/features/circuit/store/CircuitStoreContext.tsx:97-102 | toggling a flag of an existing qubit keeps one flag per qubit |
| CircuitStore.Group | frontend/src/features/circuit/store/CircuitStoreContext.tsx:103-131 | a nested circuit among the items raises the `TypeError`; otherwise the group is a fresh circuit item with no edges, the given or default symbol and colour, and ids made of the symbol and a UUID |
| CircuitStore.GroupKeepsItems | frontend/src/features/circuit/store/CircuitStoreContext.tsx:116-128 | the group holds one gate per item, in order, with the same id, its depth relative to the group's and its qubits relative to the group's start qubit |
| CircuitStore.GroupAnchorsColumn | frontend/src/features/circuit/store/CircuitStoreContext.tsx:104-118 | inside the group no depth is negative and some item is at depth 0 |
| CircuitStore.GroupAnchorsQubit | frontend/src/features/circuit/store/CircuitStoreContext.tsx:105-125 | inside the group no qubit is negative and some item touches qubit 0 |
| CircuitStore.IdPrefix | frontend/src/features/circuit/store/CircuitStoreContext.tsx:135 | the part of an id before its first dash |
| CircuitStore.PrefixOfGeneratedId | frontend/src/features/circuit/store/CircuitStoreContext.tsx:107-135 | the prefix of `symbol-uuid` is the symbol when the symbol has no dash |
| CircuitStore.Ungroup | frontend/src/features/circuit/store/CircuitStoreContext.tsx:132-146 | one item per inner item, in order, each with the inner id's prefix and a fresh UUID, its depth shifted back by the group's depth, its qubits (targets and controls, or a nested start qubit) shifted by the group's start qubit, and its parents and children cleared |
| CircuitStore.UngroupGroup | frontend/src/features/circuit/store/CircuitStoreContext.tsx:103-147 | ungrouping a group gives back each original item, edges cleared, under the original id's prefix and a new UUID |
| CircuitStore.Store.constructor | frontend/src/features/circuit/store/CircuitStoreContext.tsx:46-52 | a new store is in the initial state |
| CircuitStore.Store.AddQubit | frontend/src/features/circuit/store/CircuitStoreContext.tsx:81-85 | the state becomes `AfterAddQubit` of the old one |
| CircuitStore.Store.RemoveQubit | frontend/src/features/circuit/store/CircuitStoreContext.tsx:86-96 | the state becomes `AfterRemoveQubit` of the old one, or is left alone with the `TypeError` reported |
| CircuitStore.Store.ToggleMeasurement | frontend/src/features/circuit/store/CircuitStoreContext.tsx:97-102 | only the measurement flags change, to `Toggled` of the old ones |
| CircuitStore.Registry.GetOrCreate | frontend/src/features/circuit/store/CircuitStoreContext.tsx:173-178 | a known circuit id returns its store and changes nothing; an unknown one creates a fresh store in the initial state and records it |
| ComposerStore.Initial | frontend/src/features/composer/ComposerStoreContext.tsx:22-24 | no circuits and no active circuit |
| ComposerStore.Added | frontend/src/features/composer/ComposerStoreContext.tsx:27-32 | the circuit is appended and becomes the active one |
| ComposerStore.AddCircuitValid | frontend/src/features/composer/ComposerStoreContext.tsx:27-32 | adding a circuit with a fresh id keeps ids distinct and the active id pointing at a circuit (or empty) |
| ComposerStore.WithoutId | frontend/src/features/composer/ComposerStoreContext.tsx:36 | the circuits filtered by a different id, which by `FilterInOrder` keeps exactly those, in order |
| ComposerStore.FindIndex | frontend/src/features/composer/ComposerStoreContext.tsx:43 | the first position of the id, or -1 exactly when no circuit has it |
| ComposerStore.Removed | frontend/src/features/composer/ComposerStoreContext.tsx:33-54 | the circuits become those with another id; the project name is unchanged |
| ComposerStore.RemoveLastClearsActive | frontend/src/features/composer/ComposerStoreContext.tsx:40-41 | when no circuit is left the active id becomes empty |
| ComposerStore.RemoveOtherKeepsActive | frontend/src/features/composer/ComposerStoreContext.tsx:38-47 | removing a circuit that is not active keeps the active id while some circuit is left |
| ComposerStore.RemoveActiveSelectsNeighbour | frontend/src/features/composer/ComposerStoreContext.tsx:42-47 | removing the active circuit selects the next one, or the previous one when it was last |
| ComposerStore.RemoveCircuitValid | frontend/src/features/composer/ComposerStoreContext.tsx:33-54 | removing a circuit keeps ids distinct and the active id pointing at a circuit (or empty) |
| ComposerStore.Updated | frontend/src/features/composer/ComposerStoreContext.tsx:55-61 | circuits with the id get the fields the update sets, the others are unchanged, and the active id is kept |
| ComposerStore.UpdateIdempotent | frontend/src/features/composer/ComposerStoreContext.tsx:55-61 | applying the same update (one that does not change ids) twice equals applying it once |
| ComposerStore.UpdateCircuitValid | frontend/src/features/composer/ComposerStoreContext.tsx:55-61 | an update that does not change ids keeps the selection sound |
| ComposerStore.Store.constructor | frontend/src/features/composer/ComposerStoreContext.tsx:22-24 | a new store is in the initial state |
| ComposerStore.Store.AddCircuit | frontend/src/features/composer/ComposerStoreContext.tsx:27-32 | the state becomes `Added` of the old one; a sound selection stays sound for a fresh id |
| ComposerStore.Store.RemoveCircuit | frontend/src/features/composer/ComposerStoreContext.tsx:33-54 | the state becomes `Removed` of the old one; a sound selection stays sound |
| ComposerStore.Store.UpdateCircuit | frontend/src/features/composer/ComposerStoreContext.tsx:55-61 | the state becomes `Updated` of the old one; a sound selection stays sound when ids are kept |
| ProjectsStore.AddProject | frontend/src/stores/projectsStore.ts:28-41 | the project is appended with the generated id and both timestamps set to now, the existing projects unchanged, and the id is returned |
| ProjectsStore.GetProject | frontend/src/stores/projectsStore.ts:56-58 | a project is found exactly when one has the id, and it is the first project with that id |
| ProjectsStore.AddThenGet | frontend/src/stores/projectsStore.ts:28-58 | a project added under a fresh id is found by that id, and ids stay distinct |
| ProjectsStore.UpdateProject | frontend/src/stores/projectsStore.ts:42-50 | the projects with the id get the fields the update sets and a new `updatedAt`, keeping id and creation time; the others are unchanged |
| ProjectsStore.DeleteProject | frontend/src/stores/projectsStore.ts:51-55 | the projects filtered by a different id, which by `FilterInOrder` keeps exactly those, in order |
| ProjectsStore.DeleteThenGet | frontend/src/stores/projectsStore.ts:51-58 | a deleted project is no longer found and every other project is found as before |
| ProjectsStore.UniqueGet | frontend/src/stores/projectsStore.ts:56-58 | with distinct ids, each stored project is what its id finds |
| ProjectsStore.DeleteKeepsDistinct | frontend/src/stores/projectsStore.ts:51-55 | deleting keeps ids distinct |
| ProjectsStore.DuplicateProject | frontend/src/stores/projectsStore.ts:59-70 | an unknown id gives null and changes nothing; otherwise a copy named "<name> (Copy)" with the same description, circuits and active circuit is appended under the new id, which is returned |
| ProjectsStore.Store.constructor | frontend/src/stores/projectsStore.ts:27 | no projects |
| ProjectsStore.Store.Add | frontend/src/stores/projectsStore.ts:28-41 | the projects and the returned id are those of `AddProject` |
| ProjectsStore.Store.Update | frontend/src/stores/projectsStore.ts:42-50 | the projects become `UpdateProject` of the old ones |
| ProjectsStore.Store.Delete | frontend/src/stores/projectsStore.ts:51-55 | the projects become `DeleteProject` of the old ones |
| ProjectsStore.Store.Duplicate | frontend/src/stores/projectsStore.ts:59-70 | the projects and the returned id are those of `DuplicateProject` |
| CollaborationStore.Cleared | frontend/src/stores/collaborationStore.ts:58-93 | no project, no role, no collaborators and no locks |
| CollaborationStore.PaletteDistinct | frontend/src/types/collaboration.ts:177-188 | the palette holds ten different colours |
| CollaborationStore.Available | frontend/src/stores/collaborationStore.ts:48 | exactly the palette colours not yet taken, in palette order |
| CollaborationStore.AssignColor | frontend/src/stores/collaborationStore.ts:47-55 | the colour is from the palette: the first one not taken when there is one, otherwise the one the user id's character-code sum picks modulo the palette size |
| CollaborationStore.FirstAvailableIsFirstFree | frontend/src/stores/collaborationStore.ts:48-50 | no free colour comes before the one assigned |
| CollaborationStore.AssignNextColor | frontend/src/stores/collaborationStore.ts:47-50 | with the first i colours taken, the next collaborator gets colour i |
| CollaborationStore.AssignedFollowsPalette | frontend/src/stores/collaborationStore.ts:63-76 | up to ten collaborators get the palette colours in order |
| CollaborationStore.RosterKeys | frontend/src/stores/collaborationStore.ts:63-76 | the roster is keyed by exactly the user ids of the permissions |
| CollaborationStore.RosterOffline | frontend/src/stores/collaborationStore.ts:71-75 | every roster entry starts offline with a palette colour |
| CollaborationStore.RosterEntry | frontend/src/stores/collaborationStore.ts:67-76 | a user's entry is made from their last permission, with the colour assigned at that point |
| CollaborationStore.Initialize | frontend/src/stores/collaborationStore.ts:63-84 | the project and role are set, no gate is locked and the collaborators are the roster of the permissions |
| CollaborationStore.Added | frontend/src/stores/collaborationStore.ts:95-108 | the user is stored with the given user id, e-mail, presence and role, no last-seen time, and the colour `AssignColor` picks against the colours in use (one not in use while one is free); every other collaborator is unchanged; an existing user keeps its place and a new one is appended; locks, project and role stay |
| CollaborationStore.ReleaseFrom | frontend/src/stores/collaborationStore.ts:116-121 | exactly the locks of the listed gates held by the user are dropped; the others are kept as they were |
| CollaborationStore.Removed | frontend/src/stores/collaborationStore.ts:110-124 | the user leaves the collaborators and exactly their locks are released |
| CollaborationStore.Locked | frontend/src/stores/collaborationStore.ts:185-190 | the gate's lock becomes the given one; collaborators stay |
| CollaborationStore.Unlocked | frontend/src/stores/collaborationStore.ts:192-197 | the gate's lock is dropped; collaborators stay |
| CollaborationStore.LockUnlock | frontend/src/stores/collaborationStore.ts:185-205 | a locked gate reports locked with the newest lock, an unlocked one reports unlocked, and other gates' locks are untouched |
| CollaborationStore.RemovedHoldsNoLock | frontend/src/stores/collaborationStore.ts:110-124 | after a user is removed no lock names them, and every other user's lock is unchanged |
| CollaborationStore.BuildRoster | frontend/src/stores/collaborationStore.ts:64-76 | the loop over the permissions builds `Roster` |
| CollaborationStore.PermissionOrder | frontend/src/stores/collaborationStore.ts:207-215 | an owner can edit; editing is allowed exactly for owners and editors, ownership exactly for owners |
| CollaborationStore.Store.constructor | frontend/src/stores/collaborationStore.ts:57-61 | a new store is cleared |
| CollaborationStore.Store.InitializeCollaboration | frontend/src/stores/collaborationStore.ts:63-84 | the state becomes `Initialize` of the arguments |
| CollaborationStore.Store.ClearCollaboration | frontend/src/stores/collaborationStore.ts:86-93 | the state becomes `Cleared` |
| CollaborationStore.Store.AddCollaborator | frontend/src/stores/collaborationStore.ts:95-108 | the state becomes `Added` of the old one |
| CollaborationStore.Store.RemoveCollaborator | frontend/src/stores/collaborationStore.ts:110-124 | the state becomes `Removed` of the old one |
| CollaborationStore.Store.LockGate | frontend/src/stores/collaborationStore.ts:185-190 | the state becomes `Locked` of the old one |
| CollaborationStore.Store.UnlockGate | frontend/src/stores/collaborationStore.ts:192-197 | the state becomes `Unlocked` of the old one |
| Renderer.HasCollision | frontend/src/features/circuit/hooks/useCircuitRenderer.ts:55-68 | true exactly when some placed gate, other than the excluded one, sits in the same column and its qubit interval meets the new one's |
| Renderer.CollisionMeansSharedQubit | frontend/src/features/circuit/hooks/useCircuitRenderer.ts:61-66 | for gates of at least one qubit, a collision means the same column and some qubit covered by both closed intervals |
| Renderer.IsValid | frontend/src/features/circuit/hooks/useCircuitRenderer.ts:70-79 | a drop is valid exactly when the column is within `[0, maxDepth)`, the qubits are within `[0, numQubits)` and nothing collides |
| Renderer.ValidDropKeepsDisjoint | frontend/src/features/circuit/hooks/useCircuitRenderer.ts:70-79 | a valid drop onto gates that do not overlap leaves gates that do not overlap |
| QubitkitGate.TypeOf | packages/qubitkit/qubitkit/gate.py:30-35 | a gate is a measurement exactly when its lower-cased name contains "measure"; otherwise single-qubit for one qubit, two-qubit for two, custom else |
| QubitkitGate.TypeIgnoresCase | packages/qubitkit/qubitkit/gate.py:31 | the type does not depend on the case of the name |
| QubitkitGate.SingleQubitMeans | packages/qubitkit/qubitkit/gate.py:27-32 | a non-measurement gate is single-qubit exactly when its qubit lists are non-empty and name one qubit only |
| QubitkitGate.DistinctCountBound | packages/qubitkit/qubitkit/gate.py:27 | the width is at most the number of listed qubits, and equal exactly when no qubit is listed twice |
| QubitkitGate.TooNarrowMeans | packages/qubitkit/qubitkit/gate.py:43-46 | the setter refuses a width exactly when some target or control is not below it |
| QubitkitGate.Gate.constructor | packages/qubitkit/qubitkit/gate.py:13-35 | the name defaults to "Gate", parameters and controls to empty, the width is the number of distinct qubits and the type follows `TypeOf`; no edges, empty qubit cache |
| QubitkitGate.Gate.SetNumQubits | packages/qubitkit/qubitkit/gate.py:41-47 | raises ValueError, changing nothing, exactly when some target or control is not below the new width; otherwise sets it |
| QubitkitGate.Gate.SetTargets | packages/qubitkit/qubitkit/gate.py:59-64 | raises IndexError, changing nothing, exactly when some new target is not below the width; otherwise sets them, keeping the qubits in range |
| QubitkitGate.Gate.SetControls | packages/qubitkit/qubitkit/gate.py:70-75 | the same for controls |
| QubitkitGate.Gate.Qubits | packages/qubitkit/qubitkit/gate.py:49-53 | the cached set becomes exactly the targets and controls, and is returned |
| QubitkitGate.Gate.CloneAsWritten | packages/qubitkit/qubitkit/gate.py:77-86 | as written, cloning fails with ValueError exactly when the width is not above every listed qubit; otherwise the copy is new, equal under `__eq__`, with the same width and library |
| QubitkitGate.Gate.Clone | packages/qubitkit/qubitkit/gate.py:77-97 | the copy is new, equal under `__eq__` to the original, with the same width, library and type |
| QubitkitGate.FreshGateCloneFails | packages/qubitkit/qubitkit/gate.py:77-86 | a new gate on one target qubit q >= 1 has width 1, which the setter refuses, so its clone raises as written |
| QubitkitCircuit.Nearest | packages/qubitkit/qubitkit/circuit.py:98-104 | the latest operation before position k that acts on the qubit, or -1; nothing in between acts on it |
| QubitkitCircuit.ParentsMeaning | packages/qubitkit/qubitkit/circuit.py:95-107 | the parents found are in descending order, and are exactly the nearest earlier operations on the new operation's qubits |
| QubitkitCircuit.ParentsBefore | packages/qubitkit/qubitkit/circuit.py:98 | every parent comes earlier |
| QubitkitCircuit.Linked | packages/qubitkit/qubitkit/circuit.py:103-104 | the new operation gets the parents appended, and each parent gets the new index appended to its children; nothing else changes |
| QubitkitCircuit.AppendedSound | packages/qubitkit/qubitkit/circuit.py:57-107 | appending keeps every parent earlier and every child later, with each edge recorded at both ends, and the new operation's parents are the nearest earlier ones on its qubits |
| QubitkitCircuit.AppendedParentsDistinct | packages/qubitkit/qubitkit/circuit.py:95-107 | no parent is listed twice |
| QubitkitCircuit.ParentsOf | packages/qubitkit/qubitkit/circuit.py:68-69 | an index out of range gives no parents; otherwise each parent is earlier and lists the operation as a child |
| QubitkitCircuit.ChildrenOf | packages/qubitkit/qubitkit/circuit.py:71-72 | an index out of range gives no children; otherwise each child is later and lists the operation as a parent |
| QubitkitCircuit.AllQubits | packages/qubitkit/qubitkit/circuit.py:43-55 | the qubits of the circuit are exactly those some operation acts on |
| QubitkitCircuit.ForwardReverseMirror | packages/qubitkit/qubitkit/circuit.py:79-84 | j is a successor of i in the forward graph exactly when i is a predecessor of j in the reverse graph |
| QubitkitCircuit.SourcesHaveNoParents | packages/qubitkit/qubitkit/circuit.py:86 | the starting operations are exactly those without parents |
| QubitkitCircuit.Circuit.constructor | packages/qubitkit/qubitkit/circuit.py:6-27 | no operations, both caches dirty |
| QubitkitCircuit.Circuit.AddGate | packages/qubitkit/qubitkit/circuit.py:57-66 | raises IndexError, changing nothing, exactly when some qubit of the operation is not below the circuit's width; otherwise the operation is appended at the circuit's width, linked to its parents, and both caches are marked dirty; sound edges stay sound |
| QubitkitCircuit.Circuit.DetermineParents | packages/qubitkit/qubitkit/circuit.py:95-107 | the backward loop links the operation to exactly the parents of `ParentsFrom` |
| QubitkitCircuit.Circuit.Qubits | packages/qubitkit/qubitkit/circuit.py:43-55 | the returned set is exactly the qubits of the operations, and the cache is clean afterwards |
| QubitkitCircuit.Circuit.BuildDependencies | packages/qubitkit/qubitkit/circuit.py:74-87 | with the cache clean and `use_cache` set nothing changes; otherwise the qubit table, the forward and reverse graphs and the starting set are rebuilt from the operations' children |
| QubitkitCircuit.StartsAreSources | packages/qubitkit/qubitkit/circuit.py:86 | the set of operations with no reverse edge is the set of starting operations |
| Convert.Registry | backend/app/services/convert.py:24-59 | every supported gate takes one to three qubits and maps to an `add_` method |
| Convert.Dispatch | backend/app/services/convert.py:69-80 | the call goes to the registered method; it fails with IndexError exactly when a needed first target is missing or a two-qubit gate other than SWAP has no control |
| Convert.SwapTakesTargetList | backend/app/services/convert.py:71-73 | SWAP always succeeds and passes the whole target list |
| Convert.TwoQubitGateTakesFirstTargetAndControl | backend/app/services/convert.py:71-75 | any other two-qubit gate fails with IndexError when targets or controls are empty, and otherwise passes the first target and the first control |
| Convert.CswapTakesBothLists | backend/app/services/convert.py:76-78 | CSWAP always succeeds and passes both whole lists |
| Convert.ThreeQubitGateTakesFirstTargetAndControls | backend/app/services/convert.py:76-80 | any other three-qubit gate fails with IndexError without a target, and otherwise passes the first target and the whole control list |
| Convert.AddGateCall | backend/app/services/convert.py:61-82 | an unregistered name fails with the unsupported-gate error; otherwise the registered method is called and the parameters returned are the caller's when non-empty, else the registry's defaults |
| Convert.AliasesAgree | backend/app/services/convert.py:43-58 | CX behaves as CNOT and TOFFOLI as CCX |
| Convert.ParameterizedGatesGetDefaults | backend/app/services/convert.py:36-82 | a rotation or U gate given no parameters returns non-empty defaults |
| Convert.OneQubitGateTakesFirstTarget | backend/app/services/convert.py:69-70 | a one-qubit gate with a target is applied to its first target |
| Convert.CallQubitsFromCaller | backend/app/services/convert.py:69-80 | every qubit passed to the circuit comes from the caller's targets or controls |
| Convert.SquanderCircuit.constructor | backend/app/services/convert.py:61 | a new circuit has no calls |
| Convert.AddGate | backend/app/services/convert.py:61-82 | a failing dispatch leaves the circuit alone and reports the error; a successful one appends exactly the call and returns the parameters |
| EditGateDialog.IndexOf | frontend/src/components/common/EditGateDialog.tsx:41-42 | the first position of the value, or -1 exactly when it is absent |
| EditGateDialog.ReassignSwaps | frontend/src/components/common/EditGateDialog.tsx:35-77 | choosing a qubit the gate already uses keeps the multiset of the gate's qubits: the two positions swap |
| EditGateDialog.ReassignKeepsOthers | frontend/src/components/common/EditGateDialog.tsx:35-77 | only the edited position and a position that held the chosen qubit can change |
| EditGateDialog.ReassignFresh | frontend/src/components/common/EditGateDialog.tsx:35-77 | choosing an unused qubit replaces the old one at that position and nothing else |
| EditGateDialog.ReassignKeepsDistinct | frontend/src/components/common/EditGateDialog.tsx:35-77 | a gate whose qubits were all different still has all different qubits |
| EditGateDialog.Dialog.constructor | frontend/src/components/common/EditGateDialog.tsx:25-26 | the working lists start empty |
| EditGateDialog.Dialog.Open | frontend/src/components/common/EditGateDialog.tsx:28-33 | opening copies the gate's controls and targets |
| EditGateDialog.Dialog.HandleQubitChange | frontend/src/components/common/EditGateDialog.tsx:35-77 | the lists become `Reassign` of the edited and the other list, keep their lengths, and stay free of repeats |
| EditGateDialog.Dialog.HandleConfirm | frontend/src/components/common/EditGateDialog.tsx:83-99 | with a gate, the gates become the old ones with it ejected and re-injected with the edited qubits; with distinct ids the other gates keep their order and the edited gate comes last with its id, template and new qubits; the edited lists are passed on |
| Text.StripMeaning | backend/app/services/squander_client.py:117-119 | stripping removes exactly the leading and trailing whitespace |
| Text.StripIdempotent | backend/app/services/squander_client.py:117-119 | stripping twice is stripping once |
| Sequences.FilterInOrder | frontend/src/stores/jobStore.ts:127 | `Array.prototype.filter`: the result lists, in their original order, exactly the elements the predicate keeps, each picked from a strictly later position than the one before |

## Left out
- StatsOf: `active_connection_ids` is modelled as the set of connected ids; the dict's insertion order of that list is not kept.
- Transport, I/O and clocks: WebSocket sends, SSH, SFTP, the mail provider, `Date.now()`, `datetime.now()`, `crypto.randomUUID()`, `uuid.uuid4()` and the random verification code are parameters (an outcome, a time, a UUID), never computed.
- Hub: `update_session`, `get_session`, `get_room_connections` and `get_connection_rooms` are plain dictionary accessors and are not modelled; session timestamps, the `user` and `client` records and the `messages_received` counter's updates are not tracked; logging is left out.
- Hub.ConnectionManager.Connect: follows the corrected registration `Hub.Connected` (see Findings); the source's own behaviour is `Hub.ConnectAsWritten`.
- SquanderClient.ParseProgress: the count form `int((current / total) * 100)` is computed exactly on whole numbers; the source's floating-point division can come out one lower (29/100 gives 28 there), so the model can be one above the source's value.
- SquanderClient: the body of `run_partition` between its phases (building the circuit with `build_circuit`, writing the JSON file, the remote command line, reading the result file) is given as step outcomes; `build_circuit` (backend/app/services/squander_client.py:233-335) is script text run on the remote host against the SQUANDER library and is not modelled.
- Text.IsDigit: a digit is ASCII 0-9; the patterns `\d+%` and `\d+/\d+` of backend/app/services/squander_client.py:158 and :162 also match other Unicode decimal digits in Python, so `SquanderClient.FindPercent` and `SquanderClient.FindCount` find no match on a line whose digits are, say, Arabic-Indic.
- Text.Strip: whitespace is the ASCII space, tab, newline, carriage return, vertical tab, form feed and the separators 0x1C-0x1F; Python's `str.strip` also strips non-ASCII Unicode spaces.
- Email: the HTML body and the `print` diagnostics are left out; the code store is one value, as the module-level dictionary is.
- JobStore, CircuitStore, ComposerStore, ProjectsStore: persistence to local storage (zustand `persist`), the undo history (`temporal`, `skipHistory`) and React hooks and providers are left out.
- CircuitStore: the plain setters (`setPlacedGates`, `setNumQubits`, `setMeasurements`, `setShowNestedCircuit`, `updateCircuit`, `reset`) only replace fields and are not modelled.
- CircuitStore.Group: requires a non-empty selection whose gates involve at least one qubit; for an empty selection the source computes `Math.min()` of nothing and produces an `Infinity` depth and start qubit.
- CircuitStore.Toggled: an index past the end fills the gap with unset flags, where JavaScript leaves holes that read as `undefined`; a negative index changes no flag, as it only adds a non-element property in JavaScript.
- ComposerStore: `setProjectName`, `setActiveCircuitId` and `reorderCircuits` only replace a field and are not modelled; they can make the active id point at no circuit, which is why the selection invariant is stated as preserved rather than required.
- ComposerStore, ProjectsStore: `CircuitInfo` is reduced to its id, name, qubit count and gates; a patch field given as `undefined` is treated as absent.
- ProjectsStore.DuplicateProject: the JSON deep copy of the circuits is a plain value copy.
- CollaborationStore: `updateCollaboratorPresence`, `updateCollaboratorCursor`, `updateCollaboratorSelection`, `updateCollaboratorCircuit`, `getOnlineCollaborators` and `getCollaborator` are field updates and lookups and are not modelled; cursor, selection and last-seen fields are not carried.
- CollaborationStore: a `ProjectPermission` is reduced to its user id, e-mail and role; the optional first name, last name and profile URL are only copied through by the source and are not carried.
- CollaborationStore.AssignColor: the fallback hash sums the code points of the user id, where JavaScript sums UTF-16 code units; the two differ only outside the Basic Multilingual Plane.
- Gates: `createContiguousQubitArrays`, imported by useCircuitDAG.ts, is not defined in frontend/src/features/gates/utils.ts, so the qubit arrays of a moved gate are a parameter of `CircuitDag.Moved`; frontend/src/features/gates/constants.ts is not part of this model.
- Gates.QubitSpan: a gate with no qubits has no span (`None`), where `getQubitSpan` (frontend/src/features/gates/utils.ts:21-22) returns `Infinity` as the start and `-Infinity` as the end.
- Gates.CreateQubitArrays: requires at least one qubit; with zero the source builds a target list holding `undefined`.
- Gates.InvolvedQubits: follows the code, which lists controls then targets unsorted; the unit test in frontend/src/features/gates/__tests__/utils.test.ts expects a sorted list.
- CircuitDag: the depth recalculation carries a `fuel` bound where the source recurses without one; on a cyclic graph the source does not terminate. Acyclicity is stated as a rank that drops along child edges (`RankedBy`), and a fuel at least the starting gate's rank (at most the number of gates) is shown to be enough; that every map the editor builds has such a rank and lists each child under its parents (`ParentsLinked`) is not proved.
- CircuitDag.Eject: uses the corrected parent choice (the deepest parent on each qubit, see Findings); `CircuitDag.EjectMap` with the `LastSeen` policy is the code as written.
- CircuitDagHook.EjectGate, CircuitDagHook.RemoveGate, CircuitDagHook.MoveGate, CircuitDagHook.DetachParentGates, EditGateDialog.Dialog.HandleConfirm: all go through the corrected `CircuitDag.Eject` (the deepest parent on each qubit), so on a gate whose parents collide they differ from the code as written, which keeps the last parent seen (see Findings).
- CircuitDag: gates are held by id in an ordered map; the source's in-place mutation of gate objects shared between the input list and the copied map is not modelled (the copy is deep for the edge lists, as `createGatesMap` makes it).
- Qasm: placed gates carry no parameters, so rotations print the default angle pi/2 as `1.570796`; `toFixed` is not modelled in general.
- Qasm.SortItems: proved sorted and a permutation; that items with equal keys keep their input order (the stability of `Array.prototype.sort`) is not stated.
- Renderer: drawing with D3, drag handling and pixel-to-grid conversion are left out.
- QubitkitGate: gates are objects whose fields are updated in place, but aliasing between a gate and the lists passed to it is not modelled (the lists are values); `__hash__`, `__repr__` and `__str__` are left out; parameters are an uninterpreted map.
- QubitkitCircuit: nested circuits are operations given by their qubit set; the `num_qubits` setter, `num_gates`, `_gate_dict`, the empty `flatten` and `clone` stubs and the `__main__` example are left out.
- QubitkitCircuit.Circuit.BuildDependencies: requires every recorded child index to be an operation of the circuit, which `add_gate` guarantees; otherwise the source raises `KeyError`.
- Convert: the `CircuitConverter` conversions (QASM, Qiskit, BQSKit and JSON) call foreign libraries and are left out; default angles are kept symbolic as multiples of pi.
- EditGateDialog.Dialog.HandleQubitChange: requires the index to be a position of the edited list, as the selectors only offer those; JavaScript would extend the array with holes.
- EditGateDialog.Dialog.HandleConfirm: the store write `setPlacedGates` and the `onConfirm`/`onClose` callbacks are the returned values; the placed items are gates only.

## Findings

| source | as written | input that shows it | evidently intended | confidence | as-written member | corrected member |
|---|---|---|---|---|---|---|
| backend/app/services/websocket_manager.py:46-61 | `connect` with a client id that is already connected replaces its session with one in no room, but leaves the id in the rooms it had joined | connection `a` in room `r`, then `connect` again with client id `a`: `r` lists `a` while `a`'s session lists no room; after `a` disconnects, room `r` still lists `a` | a reconnect first drops the id from every room it was in (or refuses the id), so rooms and sessions agree | not executed | Hub.ReconnectLeaksRoom | Hub.Connected |
| frontend/src/features/circuit/hooks/useCircuitDAG.ts:100-111 | `ejectGate` records for each qubit the last listed parent that touches it, not the deepest one | parents `p1` (qubits 0,1, depth 0) and `p2` (qubit 1, depth 1) of a CNOT `g` listed as `[p2, p1]`, child `c` on qubit 1: ejecting `g` hangs `c` under `p1` at depth 1, the column `p2` occupies on qubit 1 | the nearest (deepest) parent on each qubit becomes the child's parent, so `c` lands at depth 2 | not executed | CircuitDag.EjectLastSeenCollides | CircuitDag.EjectDeepestSeparates |
| packages/qubitkit/qubitkit/gate.py:77-86 | `clone` assigns the original width through the validating setter of a copy whose width is its distinct-qubit count | `Gate("H", [1]).clone()`: the width is 1 and target 1 is not below it, so the setter raises `ValueError` | cloning copies the width without validation and never fails | not executed | QubitkitGate.FreshGateCloneFails | QubitkitGate.Gate.Clone |
