# Retina: verified models

Retina runs end-to-end radio tests on a Kubernetes cluster. Around the cluster, gRPC and SSH
plumbing it has a number of small protocols and list or state algorithms whose correctness is
not evident from any single function. This project models those in Dafny and proves what they
promise. Run `dafny verify dfyconfig.toml` to check it.

| file | what it models |
|---|---|
| `Orchestration.dfy`, `Cluster.dfy`, `OrchestrationResults.dfy` | port reservation by racing to create ConfigMaps, worker threads, and the teardown of orchestrations by their own threads and by others, as a transition system |
| `PortReservation.dfy`, `IdentityLeaks.dfy`, `ClusterProgress.dfy` | the loop that reserves one port; ids that are left behind; ports that can be had and deletions that can end |
| `Teardown.dfy` | the list of ids alive in a process, and the deletion of all of them |
| `Sweeping.dfy` | what the deletion of an id alive in a process, while its own threads go on, leaves behind, and what it does to the ports they hold |
| `WebSocket.dfy` | many callers sharing one Amarisoft websocket: ids, reply queues, event counting, and the reader thread |
| `EventTallies.dfy` | what the tallies of events count, over whole runs |
| `PwsMetrics.dfy` | public-warning counts per message and per UE, and their split into ETWS and CMAS |
| `UeLifecycle.dfy`, `UeSessions.dfy`, `Decimal.dfy` | virtual UEs sharing one process: GetDefinition, Start, Stop, whose UE each switches on or off, and the numbering of IMSIs |
| `LicenseSync.dfy`, `LicenseOrder.dfy` | the three-phase license synchroniser over lists edited in place, and the order it goes through them in |
| `MarkerScanner.dfy`, `MarkerExpression.dfy`, `MarkerTexts.dfy`, `MarkerSurprises.dfy` | scanning, substituting and evaluating marker expressions, with a precedence parser in place of Python's `eval` |
| `Pipelines.dfy`, `SuiteWalk.dfy`, `PipelineMarkers.dfy` | the walk over suite files that builds jobs, stages and the stages file; which files it visits; what the expressions of the pipelines select |
| `TextLines.dfy`, `LogFollower.dfy`, `LogSearch.dfy`, `FollowedSearch.dfy` | texts and their lines; following several growing files, searching what is yielded, and when that is searching the files |
| `StdoutReader.dfy`, `OutputLines.dfy` | draining a process's output through a queue filled by a thread, and what is left of its lines |
| `RunnerManager.dfy` | pausing CI runners that administrators pause too |
| `RunningAverage.dfy` | the time-weighted average bitrate |
| `PodStartup.dfy` | the polling loops that start a deployment and a pod |
| `Sidebar.dfy` | flattening and sorting the documentation sidebar |
| `Tally.dfy`, `Sequences.dfy`, `Wrappers.dfy` | sums over maps; notions on sequences; optional values and results |

Protocols with several threads are transition systems: a state, the actions enabled in it, and
lemmas about every run from the initial state. Loops that update variables are methods with
loops, and objects that update their fields are classes; their methods are proved against
functions or predicates about which the lemmas speak. Clocks are a number of turns or of looks;
what the environment does (replies, random picks, the contents of files, the cluster) is a
parameter over which the theorems quantify.

Assumptions taken from the system: creating a ConfigMap is atomic and an existing name is refused
(`retina/orchestrator/src/retina/orchestrator/kubernetes.py:152-165`), although a create may also
report an error and take effect; a given orchestration id is deleted by one thread, its own or
that of another creation in its process; deletes succeed; event matchers reject command replies,
which is proved for the one matcher there is; log files are only appended to; the calls of one
client to the UE agent do not overlap, and the reservations and releases of licenses succeed.

## Where the code does not do what one would expect

Each of these is stated below, by a contract, by an exact condition or by an input that shows it.

- A Stop by an unknown client iterates the dictionary that the nested stop clears, so Python
  raises and the process is left running (`UeLifecycle.StopReachesProcessWhen`,
  `UeLifecycle.UnknownStopLeavesProcessRunning`). Iterating a snapshot, which is the intent, stops
  it; an exception from the websocket's farewell also keeps the process from being stopped.
- `GetDefinition` moves the counter before it reads the configured IMSI as a number
  (`UeLifecycle.NumberingNeedsNumericImsi`).
- `delete_orchestration_network` deletes every id alive in the process, not only the given ones
  (`Teardown.OrchestratorManager.DeleteOrchestrationNetwork`). Of an id that other threads
  are still building, something can be left (`Sweeping.SweepCleansWhenAtRest`), and the ports they
  hold are lost to them (`Sweeping.PortIsSafeUnlessSwept`, `Sweeping.SweptPortIsLost`).
- An orchestration id whose create reported an error but took effect is never deleted
  (`IdentityLeaks.IdentityLeaksWhen`, `IdentityLeaks.IdentityCanLeak`).
- A caller of the websocket can be answered by an unsolicited message that carries its id and
  that no handler recognises (`WebSocket.AnswerIsGenuine`, `WebSocket.WarningCanAnswer`).
- The websocket reader ends on a message that is no event and whose id is no number
  (`WebSocket.ReaderStopsOnJunkOnly`, `WebSocket.JunkStopsReader`).
- The average bitrate fails on a later row with the first row's timestamp
  (`RunningAverage.SrsUe.ParseMetrics`), and can leave the range of the rates
  (`RunningAverage.InRangeWhenStepsAgree`, `RunningAverage.OutOfOrderLeavesTheRange`).
- In a marker expression `()` is false, and a marker followed by parentheses is a call, which
  raises unless a short circuit skips it (`MarkerSurprises.EmptyParenthesesAreFalse`,
  `MarkerSurprises.CallsRaise`, `MarkerExpression.EvalRaisesAtCalls`).
- A stage of a test that bears the name of a fixed stage is not after the fixed ones
  (`Pipelines.StageFollowsFixed`, `Pipelines.FixedStageStaysFirst`).
- A line that is unfinished when a file is opened is yielded as a piece of its own, and searched
  as a line (`LogFollower.OnlyOpeningCuts`, `LogFollower.LineCutInTwo`,
  `FollowedSearch.PiecesAgree`, `FollowedSearch.TruncatedLineMatches`).
- A pod without labels ends the deployment loop with an exception, and neither that nor a hopeless
  container deletes the deployment (`PodStartup.NoLabelsEnds`, `PodStartup.CreateDeployment`).
- Unpausing a runner that Retina paused, without removing the tag, or pausing one while Retina is
  about to, breaks the ownership of pauses (`RunnerManager.TagTellsWhoPaused`,
  `RunnerManager.CarelessUnpause`, `RunnerManager.PauseBetweenReadAndSave`).

## Model

| member | source | states |
|---|---|---|
| `Cluster.RunKeepsInv` | retina/orchestrator/src/retina/orchestrator/orchestration_network.py:219-258 | Every interleaving of allocators, builders, deletions of an id by its own thread and any number of deletions by other threads keeps: a thread reserves only under a running builder, ports are owned and held by one thread until the deletion of their ConfigMaps begins, names tell owners, each own deletion's list of what is left is complete, and a deletion by another thread lists only what carries its id |
| `OrchestrationResults.GetPortsIsExclusive` | retina/orchestrator/src/retina/orchestrator/orchestration_network.py:346-367 | In every interleaving, deletions by other threads included, ports held by distinct threads of orchestrations whose ConfigMaps nobody has begun to delete are distinct, in range, and owned by the orchestration that asked for them |
| `OrchestrationResults.GetPortsReturns` | retina/orchestrator/src/retina/orchestrator/orchestration_network.py:391-400 | In every such interleaving, the n threads of a builder that succeeded hold n distinct ports of the range, owned by its orchestration, until somebody begins to delete its ConfigMaps |
| `ClusterProgress.PortsCanBeGot` | retina/orchestrator/src/retina/orchestrator/orchestration_network.py:346-367 | A builder without threads can, from any state, get any distinct free ports of the range and succeed with exactly those |
| `OrchestrationResults.DeletedLeavesNothing` | retina/orchestrator/src/retina/orchestrator/retina_kubernetes.py:1089-1143 | Whatever the interleaving, once a deletion has ended no pod, deployment or ConfigMap carries its orchestration id, not even one whose create reported an error |
| `OrchestrationResults.DeletionStartsAtRest` | retina/orchestrator/src/retina/orchestrator/orchestration_network.py:252-257 | When a failed creation begins to delete its own id, no worker of it is queued, building or reserving, the nested port threads included; for the other ids it deletes see Sweeping |
| `OrchestrationResults.DeletionSparesOthers` | retina/orchestrator/src/retina/orchestrator/retina_kubernetes.py:1126-1138 | No deletion, by the own thread of an id or by another, removes an object that carries another id |
| `ClusterProgress.DeletionCanEnd` | retina/orchestrator/src/retina/orchestrator/orchestration_network.py:252-257 | A failed creation for which nothing builds any more can delete its id to the end, whatever there is of it |
| `IdentityLeaks.IdentityLeaksWhen` | retina/orchestrator/src/retina/orchestrator/orchestration_network.py:369-386 | The ConfigMap of an id is left without an orchestration exactly when the run has a create of it that reported an error but took effect, before any accepted one |
| `IdentityLeaks.LeakedIdentityStays` | retina/orchestrator/src/retina/orchestrator/orchestration_network.py:369-386 | Once left without an orchestration, the ConfigMap of an id survives every later run |
| `IdentityLeaks.IdentityCanLeak` | retina/orchestrator/src/retina/orchestrator/orchestration_network.py:379-385 | Such a leak is reachable in one step |
| `PortReservation.ReservePort` | retina/orchestrator/src/retina/orchestrator/orchestration_network.py:346-367 | Asks for each port at most once, so at most NUMBER_OF_PORTS times; stops at the first accepted create; gives up exactly when all ports of the range were refused |
| `Teardown.OrchestratorManager.AppendToAlive` | retina/orchestrator/src/retina/orchestrator/orchestration_network.py:74-76 | Adds the id at the end of the process's list |
| `Teardown.OrchestratorManager.RemoveFromAlive` | retina/orchestrator/src/retina/orchestrator/orchestration_network.py:78-82 | Removes the id if it is there, and nothing else |
| `Teardown.RemoveFirstFromDistinct` | retina/orchestrator/src/retina/orchestrator/orchestration_network.py:78-82 | Of a list without repetitions, removal leaves exactly the other ids |
| `Teardown.OrchestratorManager.DeleteKind` | retina/orchestrator/src/retina/orchestrator/retina_kubernetes.py:1122-1138 | Collect, then delete: exactly the objects of the kind that carry the id are gone |
| `Teardown.OrchestratorManager.DeleteAllByOrchid` | retina/orchestrator/src/retina/orchestrator/retina_kubernetes.py:1089-1143 | The three phases together remove exactly what carries the id |
| `Teardown.OrchestratorManager.DeleteOrchestrationNetwork` | retina/orchestrator/src/retina/orchestrator/orchestration_network.py:116-126 | Removes everything of the given ids and of every id alive in the process, and empties the list of alive ids |
| `Sweeping.SweepCleansWhenAtRest` | retina/orchestrator/src/retina/orchestrator/orchestration_network.py:116-126 | When a failed creation deletes another id alive in its process, nothing of that id is left, whatever happens meanwhile, exactly when the id was at rest as that deletion began: no worker of it running and its own thread done with starting them |
| `Sweeping.SweepRunIsClean` | retina/orchestrator/src/retina/orchestrator/orchestration_network.py:116-126 | Of an id at rest, what is still to be deleted stays in the list of the deletion in every interleaving |
| `Sweeping.DirtySweep` | retina/orchestrator/src/retina/orchestrator/orchestration_network.py:116-126 | Of an id not at rest, a run in which something of it is left after the deletion |
| `Sweeping.PortIsSafeUnlessSwept` | retina/orchestrator/src/retina/orchestrator/orchestration_network.py:116-126 | A port that a thread holds stays owned for as long as it is held, in every interleaving in which no further deletion of its id by another thread begins, exactly when none has begun |
| `Sweeping.SweepTakesItsOwnPorts` | retina/orchestrator/src/retina/orchestrator/orchestration_network.py:116-126 | The deletion of an id, as it begins, leaves a port safe exactly when the port belongs to another id |
| `Sweeping.SweptPortIsLost` | retina/orchestrator/src/retina/orchestrator/orchestration_network.py:116-126 | A run in which a thread goes on holding a port of a deleted id whose ConfigMap is gone, so that anyone can take it |
| `WebSocket.AmarisoftWebSocket.RegisterEvent` | retina/agent/src/retina/agent/drivers/amarisoft_ws.py:157-170 | The handler is stored under its name, in the place it had, and the counts there are kept |
| `WebSocket.AmarisoftWebSocket.TakeId` | retina/agent/src/retina/agent/drivers/amarisoft_ws.py:192-195 | An id that no queue has; the step is that of the protocol in which a caller chooses its id |
| `WebSocket.AmarisoftWebSocket.CreateQueue` | retina/agent/src/retina/agent/drivers/amarisoft_ws.py:197-199 | The id has a queue, no message of any queue is lost, and a new queue is empty; the step is that of the protocol in which a caller opens its queue |
| `WebSocket.AmarisoftWebSocket.SendCommand` | retina/agent/src/retina/agent/drivers/amarisoft_ws.py:188-206 | Takes a fresh id and makes an empty queue for it before sending: together the three steps of a caller in the protocol |
| `WebSocket.AmarisoftWebSocket.CountIfEvent` | retina/agent/src/retina/agent/drivers/amarisoft_ws.py:233-242 | The first matching handler, and only it, counts the message: the tally of its event and of the key it gives grows by one, and every other tally stays |
| `WebSocket.AmarisoftWebSocket.ReadOne` | retina/agent/src/retina/agent/drivers/amarisoft_ws.py:221-231 | One turn of the reader: an event is counted, a reply put in the queue of its id, an unknown id dropped, and a non-numeric id ends the reader |
| `WebSocket.AmarisoftWebSocket.EventCount` | retina/agent/src/retina/agent/drivers/amarisoft_ws.py:173-181 | The count of a key, or the sum over all keys; 0 for what was never registered |
| `WebSocket.RunKeepsInv` | retina/agent/src/retina/agent/drivers/amarisoft_ws.py:188-265 | Every interleaving of senders, registrations, the server and the reader keeps the ten clauses of the invariant |
| `WebSocket.AnswersAreNoEvents` | retina/agent/src/retina/agent/drivers/amarisoft_ws.py:244-265 | In every interleaving no two callers share an id, and the message handed to a caller is the first one put in the queue of its id: it carries that id, and no handler registered when it was read recognises it |
| `WebSocket.AnswerIsGenuine` | retina/agent/src/retina/agent/drivers/amarisoft_ws.py:221-254 | The answer is a reply to the command exactly when no unsolicited, unrecognised packet carrying the id was read before a reply while the queue was there; whatever came after the answer stays in the queue |
| `WebSocket.NoStraysNoFalseAnswers` | retina/agent/src/retina/agent/drivers/amarisoft_ws.py:221-254 | So without such packets every answer is a reply to the command |
| `WebSocket.WarningCanAnswer` | retina/agent/src/retina/agent/drivers/amarisoft_ws.py:221-254 | A run in which a caller is answered by a public warning, for which no handler was registered |
| `WebSocket.NoReplyIsLost` | retina/agent/src/retina/agent/drivers/amarisoft_ws.py:221-231 | What was handed out for an id followed by what waits in its queue is, in order, all that was delivered to it, and every reply to it that was read was delivered |
| `WebSocket.ReplyGoesToQueue` | retina/agent/src/retina/agent/drivers/amarisoft_ws.py:197-204 | A reply always finds the queue of its id, because the queue is made before the command is sent |
| `WebSocket.EventsStayOutOfQueues` | retina/agent/src/retina/agent/drivers/amarisoft_ws.py:226-227 | No message that a registered handler recognises ever enters a queue, even when its own id is one being waited for |
| `WebSocket.ReaderStopsOnJunkOnly` | retina/agent/src/retina/agent/drivers/amarisoft_ws.py:228-231 | The reader goes on after a message exactly when it is an event or its id is a number |
| `WebSocket.JunkStopsReader` | retina/agent/src/retina/agent/drivers/amarisoft_ws.py:228-231 | A message that stops the reader |
| `WebSocket.TalliesAreConserved` | retina/agent/src/retina/agent/drivers/amarisoft_ws.py:233-242 | In every interleaving, an event's tallies sum to the number of messages counted under it |
| `EventTallies.TalliesAreExact` | retina/agent/src/retina/agent/drivers/amarisoft_ws.py:233-242 | In every interleaving, the tally of an event and a key is the number of messages read that a handler of the event was the first to recognise, and gave this key |
| `EventTallies.PwsTalliesAreExact` | retina/agent/src/retina/agent/drivers/amarisoft_ue.py:315-325 | In every interleaving in which only the handler of public warnings is registered, the tally for a UE and an identifier is the number of such warnings read since |
| `EventTallies.RegisteringStores` | retina/agent/src/retina/agent/drivers/amarisoft_ws.py:157-170 | Registering replaces the handler of an event where it stands, or adds it at the end; other handlers and all tallies stay |
| `EventTallies.HandlersAreOneEach` | retina/agent/src/retina/agent/drivers/amarisoft_ws.py:157-170 | In every interleaving no event has two handlers |
| `WebSocket.PwsRejectsReplies` | retina/agent/src/retina/agent/drivers/amarisoft_ue.py:315-325 | The matcher of public warnings rejects every command reply, so that the assumption on matchers holds for it |
| `PwsMetrics.PwsMsgCountsById` | retina/agent/src/retina/agent/drivers/amarisoft_ue.py:680-692 | Per message identifier, the sum of the selected tallies; only identifiers with a selected tally appear; the total is that of the selected tallies |
| `PwsMetrics.UeCountsSumToTotal` | retina/agent/src/retina/agent/drivers/amarisoft_ue.py:680-692 | Counts per UE sum to the count over all UEs, less what came without a UE id |
| `PwsMetrics.GetMetrics` | retina/agent/src/retina/agent/drivers/amarisoft_ue.py:694-711 | ETWS grows by the counts below the threshold and ETWS plus CMAS by all of them; it raises exactly when an identifier is no number |
| `UeLifecycle.EveryRunIsSound` | retina/agent/src/retina/agent/drivers/amarisoft_ue.py:107-171 | After every run of any clients: a started UE means a running process, clients and ids are in bijection with 1..count, and distinct clients have distinct IMSIs |
| `UeLifecycle.OneLaunchPerSession` | retina/agent/src/retina/agent/drivers/amarisoft_ue.py:169-171 | As long as some UE is started the process runs and is not launched again |
| `UeLifecycle.StopReachesProcess` | retina/agent/src/retina/agent/drivers/amarisoft_ue.py:399-505 | A Stop reaches the real process stop exactly when it leaves no UE started and neither exception occurs, for the live iteration of the code and for the intended one over a snapshot |
| `UeLifecycle.StopReachesProcessWhen` | retina/agent/src/retina/agent/drivers/amarisoft_ue.py:399-505 | The same on the state before the call: for a known client no other UE is started and its own power-off does not raise on an open link; for an unknown one no power-off of a started UE raises; and the farewell does not raise, nor the live iteration over a dictionary that is cleared |
| `UeLifecycle.UnknownStopLeavesProcessRunning` | retina/agent/src/retina/agent/drivers/amarisoft_ue.py:477-483 | A concrete state in which a Stop by an unknown client raises, with the dictionary cleared and the process running |
| `UeLifecycle.StopUnlockEnds` | retina/agent/src/retina/agent/drivers/amarisoft_ue.py:407-505 | A stop leaves the clients as they were but for started flags, or clears them; it ends with nothing to return only when no UE is started |
| `UeLifecycle.StopKeepsSound` | retina/agent/src/retina/agent/drivers/amarisoft_ue.py:399-505 | Stop keeps the invariant in every environment |
| `UeLifecycle.StartKeepsSound` | retina/agent/src/retina/agent/drivers/amarisoft_ue.py:169-370 | Start keeps the invariant, however often launching fails |
| `UeLifecycle.LaunchEnds` | retina/agent/src/retina/agent/drivers/amarisoft_ue.py:170-347 | Launching keeps the clients, starts none, and succeeds only with a newly launched running process and an open websocket |
| `UeLifecycle.StartSparesRunningProcess` | retina/agent/src/retina/agent/drivers/amarisoft_ue.py:169-171 | While some UE is started, Start neither launches nor stops the process |
| `UeSessions.LaunchesWhen` | retina/agent/src/retina/agent/drivers/amarisoft_ue.py:170-347 | With no UE started, a launch succeeds exactly when the first attempt that does not find the license in use goes well, launches once per attempt, and touches no client |
| `UeSessions.LaunchLeaves` | retina/agent/src/retina/agent/drivers/amarisoft_ue.py:170-347 | What a launch leaves, also one that fails: it goes as far as the first attempt that does not find the license in use, has launched once per attempt that got to it, and the process runs exactly when that attempt launched one, or one ran before and it did not get to stop that |
| `UeSessions.StartStarts` | retina/agent/src/retina/agent/drivers/amarisoft_ue.py:169-370 | A Start switches on its client's UE and nobody else's, and forgets nobody; the exact condition for it to return; one that returns leaves its client's UE on, and starts nobody exactly when there are no clients |
| `UeSessions.StopStops` | retina/agent/src/retina/agent/drivers/amarisoft_ue.py:399-505 | A Stop switches off its client's UE and nobody else's, or, from a client without an entry, all up to the first that cannot be; clients are forgotten and the link closed exactly when that leaves none on; the exact condition for a response at once |
| `UeSessions.OnUntilStopped` | retina/agent/src/retina/agent/drivers/amarisoft_ue.py:148-505 | In every run, a UE that is on stays on exactly as long as every Stop spares it: one by another client always does, its own only when the power-off raises, one by a client without an entry only when it or one before it cannot be switched off |
| `UeSessions.StartedUntilStopped` | retina/agent/src/retina/agent/drivers/amarisoft_ue.py:148-505 | So after a Start that returned, whatever happened before, while there are clients |
| `UeLifecycle.NumberingNeedsNumericImsi` | retina/agent/src/retina/agent/drivers/amarisoft_ue.py:116-124 | A new client keeps the numbering exactly when the configured IMSI is a number |
| `UeLifecycle.ImsisDiffer` | retina/agent/src/retina/agent/drivers/amarisoft_ue.py:120-122 | Different subscriber ids give different IMSIs |
| `UeLifecycle.ImsiLength` | retina/agent/src/retina/agent/drivers/amarisoft_ue.py:120-122 | The IMSI keeps its length exactly while base + id < 10^length |
| `UeLifecycle.ImsiIsStable` | retina/agent/src/retina/agent/drivers/amarisoft_ue.py:132-135 | A client's repeated GetDefinition gives the same IMSI until the dictionary is cleared |
| `UeSessions.ImsiIsOwn` | retina/agent/src/retina/agent/drivers/amarisoft_ue.py:107-137 | GetDefinition hands out the IMSI of the client's own entry, new or known; as a number it is the configured one plus the subscriber id; other entries stay |
| `UeSessions.ClientsDiffer` | retina/agent/src/retina/agent/drivers/amarisoft_ue.py:107-137 | After every run, two clients that ask are handed different IMSIs |
| `UeLifecycle.AmarisoftUe.CallGetDefinition` | retina/agent/src/retina/agent/drivers/amarisoft_ue.py:107-137 | Refines GetDefinition on the fields: counter first, then the number, then the entry |
| `UeLifecycle.AmarisoftUe.CallStopKnown` | retina/agent/src/retina/agent/drivers/amarisoft_ue.py:409-464 | Refines the stop of a known client: already stopped, still some started, or the last one |
| `UeLifecycle.AmarisoftUe.CallStopUnlock` | retina/agent/src/retina/agent/drivers/amarisoft_ue.py:407-505 | Refines _stop_unlock, with the loop over the dictionary and its size check |
| `UeLifecycle.AmarisoftUe.CallStop` | retina/agent/src/retina/agent/drivers/amarisoft_ue.py:399-404 | The process is stopped exactly when there is no response to give |
| `UeLifecycle.AmarisoftUe.CallStart` | retina/agent/src/retina/agent/drivers/amarisoft_ue.py:169-370 | Refines Start: launch if no UE is started, then power on this client |
| `UeLifecycle.AmarisoftUe.CallLaunch` | retina/agent/src/retina/agent/drivers/amarisoft_ue.py:170-347 | Refines the launch, which repeats while the license is in use |
| `Decimal.ValueOfPadded` | retina/agent/src/retina/agent/drivers/amarisoft_ue.py:120-122 | Zero padding does not change the number a text stands for |
| `Decimal.PaddedLength` | retina/agent/src/retina/agent/drivers/amarisoft_ue.py:120-122 | A padded number has the given length exactly when it fits in it |
| `LicenseSync.SortedIsRanked` | infrastructure/retina-cronjobs/scripts/amarisoft_license.py:94 | The sort puts the fake user's reservations first, then those of others, and only permutes |
| `LicenseOrder.SortedIsStable` | infrastructure/retina-cronjobs/scripts/amarisoft_license.py:94 | The sort is by rank and then by tag, and keeps the order of reservations of the same rank and tag |
| `LicenseOrder.LexLessAt` | infrastructure/retina-cronjobs/scripts/amarisoft_license.py:94 | Tags compare by the first character that differs, and a beginning comes first |
| `LicenseSync.InUseIsReported` | infrastructure/retina-cronjobs/scripts/amarisoft_license.py:66-83 | What counts as used of a tag is how often the server reports it; uses without a tag are skipped |
| `LicenseSync.MatchReserved` | infrastructure/retina-cronjobs/scripts/amarisoft_license.py:97-116 | Of each tag, used licenses take the fake user's reservations first, then those of others, and none of the free ones |
| `LicenseSync.RetinaCluster.ReserveFree` | infrastructure/retina-cronjobs/scripts/amarisoft_license.py:118-125 | Each unmatched used license reserves one free license of its tag while there is one; other users keep theirs; exactly those listed, which were free, are now the fake user's |
| `LicenseSync.RetinaCluster.ReleaseUnused` | infrastructure/retina-cronjobs/scripts/amarisoft_license.py:127-131 | Exactly the fake user's unmatched reservations are released; exactly those listed, which were the fake user's, are now free |
| `LicenseSync.RetinaCluster.Sync` | infrastructure/retina-cronjobs/scripts/amarisoft_license.py:62-131 | Of every tag the fake user ends with min(s,f) + min(max(0,s-f-o),e) licenses; other users' reservations are untouched; exactly the listed licenses change, the reserved ones from free to the fake user and the released ones back |
| `LicenseSync.RetinaCluster.SyncTwice` | infrastructure/retina-cronjobs/scripts/amarisoft_license.py:62-131 | A second run with the same used licenses reserves and releases nothing |
| `LicenseSync.TargetIsStable` | infrastructure/retina-cronjobs/scripts/amarisoft_license.py:62-131 | The number held is a fixed point, and never exceeds the number used |
| `MarkerExpression.MeaningOfPrintedTree` | e2e/scripts/generate_pipelines.py:214-234 | Of every tree over and, or, not and parentheses, in every layout and for every marker set: scanning its printed form, substituting and evaluating is the tree's boolean value |
| `MarkerExpression.EvaluateMarkerExpression` | e2e/scripts/generate_pipelines.py:214-234 | The scanning loop ends on every text, and its result, each exception included, is the meaning of the text: scan, parse, then evaluate |
| `MarkerTexts.MeaningOfText` | e2e/scripts/generate_pipelines.py:214-234 | Every text is of one kind, and the exceptions tell which: no layout of tokens, tokens that are no tree, or a tree, which means what evaluating it comes to |
| `MarkerTexts.ScanInvertsLayout` | e2e/scripts/generate_pipelines.py:220-231 | The scanner gives tokens exactly when the text is a layout of them, so that it refuses exactly the other texts |
| `MarkerTexts.ParseInvertsPrint` | e2e/scripts/generate_pipelines.py:233-234 | The parser gives a tree exactly when the tokens are its printed form with some further parentheses |
| `PipelineMarkers.PythonPrecedence` | e2e/scripts/generate_pipelines.py:233-234 | Without parentheses, and binds before or and not before and, for all markers and layouts |
| `PipelineMarkers.MeaningOnTestbeds` | e2e/scripts/generate_pipelines.py:26-33 | As it is written, the expression of two testbeds selects the test cases of either that are, or are not, weekly, whatever the testbeds are called |
| `PipelineMarkers.MeaningOfPipelines` | e2e/scripts/generate_pipelines.py:26-33 | What each of the five expressions of the repository selects, for every set of markers |
| `MarkerExpression.ParsePrintRoundTrip` | e2e/scripts/generate_pipelines.py:233-234 | Parsing the printed form of a tree gives the tree back, redundant parentheses apart |
| `MarkerExpression.EvalTokensSubst` | e2e/scripts/generate_pipelines.py:226-234 | Substituting before parsing means the same as parsing before substituting, for every token list, syntax errors included |
| `MarkerExpression.EvalIsSelects` | e2e/scripts/generate_pipelines.py:233-234 | Evaluating a tree without calls is its boolean value and never raises |
| `MarkerExpression.EvalRaisesAtCalls` | e2e/scripts/generate_pipelines.py:233-234 | Evaluating any tree raises exactly when it comes to a call, short circuits taken into account, and is its boolean value otherwise |
| `MarkerSurprises.EmptyParenthesesAreFalse` | e2e/scripts/generate_pipelines.py:214-234 | The expression () is false |
| `MarkerSurprises.CallsRaise` | e2e/scripts/generate_pipelines.py:214-234 | The expression a() raises |
| `MarkerScanner.ScanText` | e2e/scripts/generate_pipelines.py:220-231 | Scanning a layout of tokens gives the tokens back |
| `Pipelines.Pipeline.RunsSuite` | e2e/scripts/generate_pipelines.py:146-154 | No expression runs all suite files; else the file runs when some test case is selected; the first exception raises |
| `Pipelines.SelectedWhenSomeCaseIs` | e2e/scripts/generate_pipelines.py:146-154 | Without exceptions a file is selected exactly when some test case satisfies the expression |
| `Pipelines.FirstCaseDecides` | e2e/scripts/generate_pipelines.py:146-154 | The first test case that the expression does not refuse decides, also when it raises; without one the file is not selected |
| `Pipelines.Pipeline.AddJob` | e2e/scripts/generate_pipelines.py:311-314 | One more job, with the stages still those of the jobs, once each in order of first use |
| `Pipelines.SelectedBy` | e2e/scripts/generate_pipelines.py:306 | Every pipeline is asked, unless one raises |
| `Pipelines.VisitSuite` | e2e/scripts/generate_pipelines.py:296-316 | A suite file adds a job to exactly the pipelines that select it, or changes nothing and raises |
| `Pipelines.Iterate` | e2e/scripts/generate_pipelines.py:282-325 | The walk raises exactly when some pipeline raises on some suite file; otherwise each pipeline gains exactly its jobs, in traversal order |
| `SuiteWalk.WalkVisits` | e2e/scripts/generate_pipelines.py:282-325 | The walk visits, in order, exactly the entries of the second level, below folders, that are called like a suite file: each gives a suite with the name of the file without its extension, the name of the folder as its stage, and the test cases of the file |
| `SuiteWalk.SuiteFileNames` | e2e/scripts/generate_pipelines.py:296-300 | A name is that of a suite file exactly when it is a non-empty name followed by .yml or .yaml, and that name, the only one, is its stem |
| `SuiteWalk.JobsAreSelected` | e2e/scripts/generate_pipelines.py:306-314 | The jobs are, in order, one for each suite of the walk that is selected, with its name and stage |
| `Pipelines.DedupElements` | e2e/scripts/generate_pipelines.py:359 | dict.fromkeys keeps every element, once |
| `Pipelines.DedupOrder` | e2e/scripts/generate_pipelines.py:359 | It keeps them in order of first use |
| `Pipelines.DedupPrefix` | e2e/scripts/generate_pipelines.py:351-359 | A list without repetitions stays in front of what is added |
| `Pipelines.StagesReachTheFile` | e2e/scripts/generate_pipelines.py:441-453 | The stage of every job of a pipeline with jobs is among the dynamic stages |
| `Pipelines.StageFollowsFixed` | e2e/scripts/generate_pipelines.py:342-362 | A stage comes after the fixed ones in the stages file exactly when it does not bear the name of one |
| `Pipelines.FixedStageStaysFirst` | e2e/scripts/generate_pipelines.py:342-362 | A stage named ci, which stays the first of the fixed ones |
| `Pipelines.GenerateStagesFile` | e2e/scripts/generate_pipelines.py:342-362 | The fixed stages first, then every stage of a job and no other, each once |
| `Pipelines.Generate` | e2e/scripts/generate_pipelines.py:424-458 | All pipelines hold exactly their jobs, and the stages file all stages used by them |
| `Pipelines.OnTestbedsSelects` | e2e/scripts/generate_pipelines.py:26-33 | The pipelines' own expressions select a test case of either testbed, and weekly ones exactly when asked for |
| `Pipelines.TestbedsAreSharedOut` | e2e/scripts/generate_pipelines.py:26-33 | However laid out, they never raise, and of the daily and weekly pipelines of a testbed exactly one runs each test case of it |
| `TextLines.LinesAreWhole` | retina/agent/src/retina/agent/features/sut_handler.py:276-280 | readlines cuts a text into lines and loses nothing; only the last one may be unfinished, and it is exactly when the text is |
| `LogFollower.FollowedIsLossless` | retina/agent/src/retina/agent/features/sut_handler.py:282-314 | What was yielded for a file plus its partial line is the text of the file, from its beginning or from its end at the time it was opened, to where reading has come |
| `LogFollower.ReadKeeps` | retina/agent/src/retina/agent/features/sut_handler.py:302-308 | A readline keeps what was followed exact, whether it completes a line, which is then yielded, or adds to the line kept |
| `LogFollower.ViewIsUnique` | retina/agent/src/retina/agent/features/sut_handler.py:282-314 | What was yielded and what is kept are determined by the text at opening, the text now, and how far it was read |
| `LogFollower.OpenedAllFollow` | retina/agent/src/retina/agent/features/sut_handler.py:293-298 | Opening a file yields the lines it has, when they are wanted, and keeps every file followed exactly |
| `LogFollower.OnlyOpeningCuts` | retina/agent/src/retina/agent/features/sut_handler.py:276-308 | Of all that is yielded, a piece is not a whole line exactly when it is the last one yielded on opening a file that then ended in an unfinished line |
| `LogFollower.LineCutInTwo` | retina/agent/src/retina/agent/features/sut_handler.py:276-308 | A followed file, opened on an unfinished line and then read to its end, one line of which is yielded as two pieces |
| `LogFollower.OpenLog` | retina/agent/src/retina/agent/features/sut_handler.py:276-280 | Opening reads all there is, adds its lines to what is yielded where they are wanted, and records when it was |
| `LogFollower.ReadLine` | retina/agent/src/retina/agent/features/sut_handler.py:302-308 | Exactly one line, or what there is of it, is read; what was yielded stays, and nothing of other files is read |
| `LogFollower.PollFile` | retina/agent/src/retina/agent/features/sut_handler.py:292-308 | A line of an open file is read, or a file that has appeared is opened in this turn; what was yielded stays |
| `LogFollower.PollAll` | retina/agent/src/retina/agent/features/sut_handler.py:286-308 | One such turn for every file, in order, each at its own time; what the turns yield comes in the order of the files |
| `LogFollower.GetLogLines` | retina/agent/src/retina/agent/features/sut_handler.py:282-314 | Under any schedule of arrivals: what is yielded for each file are exactly the lines it had on being opened, where wanted, and those appended since, up to where reading has come; a file is opened in the first round that starts with it there; and in each round since then at least one line more of what it held then was read, or all of it |
| `FollowedSearch.PiecesAgree` | retina/agent/src/retina/agent/features/sut_handler.py:255-263 | Joining pieces and searching them is searching a text, for every pattern that looks at one line at a time, exactly when they have the same lines, blank ones apart |
| `FollowedSearch.FollowedFilesAgree` | retina/agent/src/retina/agent/features/sut_handler.py:255-308 | For all followed files together: searching what is yielded is searching what was read of each file, the kept lines apart, exactly when both have the same lines; and so it is when no file whose content was wanted on opening ended then in an unfinished line |
| `FollowedSearch.TruncatedLineMatches` | retina/agent/src/retina/agent/features/sut_handler.py:255-308 | Following that file, a line is found that it never held |
| `LogSearch.SlotIsFirstAnswer` | retina/agent/src/retina/agent/features/sut_handler.py:347-357 | A slot holds the whole match and then the groups, in order, found on the first accumulated output its pattern matches, and is empty until then |
| `LogSearch.CheckMatches` | retina/agent/src/retina/agent/features/sut_handler.py:347-357 | Any: the lowest matching empty slot is filled and no other; all: every empty slot whose pattern matches is filled, and the search is over when none is empty; a slot holds the whole match first, then the groups in order |
| `LogSearch.ReadFromLog` | retina/agent/src/retina/agent/features/sut_handler.py:239-263 | Any: the lowest pattern on the shortest output that any matches; all: every slot's first answer, returned as soon as none is missing; otherwise no result |
| `StdoutReader.NothingIsLost` | retina/agent/src/retina/agent/features/executor.py:251-271 | In every interleaving that ends without a timeout exactly the non-blank cleaned lines were yielded, in order; before that, a prefix of them |
| `StdoutReader.RunKeepsInv` | retina/agent/src/retina/agent/features/executor.py:251-271 | Every interleaving keeps: lines taken were yielded, the others are in order in the queue and with the process |
| `StdoutReader.EmptyFirstLosesALine` | retina/agent/src/retina/agent/features/executor.py:267 | With the two tests in the other order a line can be lost |
| `StdoutReader.ReadFromProcessStdout` | retina/agent/src/retina/agent/features/executor.py:251-271 | The loop, against any schedule of the filling thread: all lines, or a timeout after the allowed turns with a prefix of them |
| `OutputLines.OutputIsYielded` | retina/agent/src/retina/agent/features/executor.py:251-271 | In every interleaving that ends without a timeout: in order, one text for each line with a character below U+0080 that is no space, namely the ASCII part of the line without the spaces at its end |
| `OutputLines.YieldedWhenPrinted` | retina/agent/src/retina/agent/features/executor.py:270-271 | A line is skipped exactly when it has no such character |
| `OutputLines.CleanIs` | retina/agent/src/retina/agent/features/executor.py:377-378 | What cleaning leaves of a line is the only text that does not end in a space and of which the ASCII part of the line is the continuation by spaces |
| `OutputLines.AsciiKeeps` | retina/agent/src/retina/agent/features/executor.py:377-378 | The ASCII part keeps exactly the characters below U+0080, in order |
| `StdoutReader.BlankMeansEmpty` | retina/agent/src/retina/agent/features/executor.py:270-271 | A cleaned line is skipped exactly when nothing is left of it |
| `RunnerManager.RunnersToDisableByTime` | infrastructure/retina-cronjobs/scripts/retina_runner.py:166-179 | Exactly the runners whose modes hold the mode in lower case; none without a mode |
| `RunnerManager.GetRunnersToDisableEnable` | infrastructure/retina-cronjobs/scripts/retina_runner.py:182-205 | The two lists have no repetitions, are disjoint and together all runners of the cluster's nodes; to be disabled are exactly those of blocked nodes or disabled by the mode |
| `RunnerManager.DisabledWhen` | infrastructure/retina-cronjobs/scripts/retina_runner.py:166-205 | To be disabled is a runner of a blocked node, or one of whose modes is the given one in lower case |
| `RunnerManager.RunnerManager.ChangeRunnerStatus` | infrastructure/retina-cronjobs/scripts/retina_runner.py:27-58 | One change: nothing for an unknown, offline or foreign-paused runner or an unsaved change |
| `RunnerManager.ChangeIsOwned` | infrastructure/retina-cronjobs/scripts/retina_runner.py:37-52 | A change never touches a foreign pause or other tags, and the number of Retina tags follows the change of the pause |
| `RunnerManager.EnableUndoesPause` | infrastructure/retina-cronjobs/scripts/retina_runner.py:46-52 | Pausing and then enabling gives an untagged runner back as it was |
| `RunnerManager.RunnerManager.RunOnce` | infrastructure/retina-cronjobs/scripts/retina_runner.py:208-250 | A run enables and disables each chosen runner once, each by its own state and list |
| `RunnerManager.RunIs` | infrastructure/retina-cronjobs/scripts/retina_runner.py:208-250 | A run changes exactly the chosen runners whose change is saved, that are online and not paused by somebody else; their pause is then as chosen, and their other tags stay |
| `RunnerManager.FullRunSettles` | infrastructure/retina-cronjobs/scripts/retina_runner.py:230-250 | After a saved run, an online runner is paused exactly when it is to be disabled or somebody else had paused it |
| `RunnerManager.TagTellsWhoPaused` | infrastructure/retina-cronjobs/scripts/retina_runner.py:31-52 | Over any history of readings, savings and administrators the tag is there once on the runners Retina paused and nowhere else, at every moment, exactly when no administrator unpaused a tagged runner, or paused one between the reading and the saving of a change that pauses it |
| `RunnerManager.FetchThenSave` | infrastructure/retina-cronjobs/scripts/retina_runner.py:31-52 | Reading and saving with nothing in between is one change |
| `RunnerManager.AdminPauseLasts` | infrastructure/retina-cronjobs/scripts/retina_runner.py:37-42 | A runner an administrator paused keeps its pause and tags through every run until an administrator unpauses it |
| `RunnerManager.OtherTagsStay` | infrastructure/retina-cronjobs/scripts/retina_runner.py:46-52 | The other tags of a runner stay, in order, over any history |
| `RunnerManager.CarelessUnpause` | infrastructure/retina-cronjobs/scripts/retina_runner.py:40-52 | Concrete histories in which unpausing a tagged runner leads to two tags, or to Retina ending an administrator's pause |
| `RunnerManager.PauseBetweenReadAndSave` | infrastructure/retina-cronjobs/scripts/retina_runner.py:35-52 | A history in which an administrator pauses a runner between its reading and its saving, and Retina takes the pause over and ends it |
| `RunningAverage.SrsUe.ParseMetrics` | retina/agent/src/retina/agent/drivers/srs_ue.py:208-246 | The metrics are the counts and averages of the rows before the end marker; it fails exactly when a later row has the first row's time, leaving the counts up to that row and the averages before it |
| `RunningAverage.StepKeepsAverage` | retina/agent/src/retina/agent/drivers/srs_ue.py:235-244 | One step turns the average of the rows so far into that of one row more, for any other timestamp |
| `RunningAverage.AverageIsUnique` | retina/agent/src/retina/agent/drivers/srs_ue.py:235-244 | No other rate times the time elapsed is the sum of b_i (t_i - t_(i-1)) |
| `RunningAverage.CountsAreTotals` | retina/agent/src/retina/agent/drivers/srs_ue.py:217-230 | The downlink count is the total of the integer parts of the dl_bler column, and the uplink count that of ul_bler |
| `RunningAverage.AverageIsBetween` | retina/agent/src/retina/agent/drivers/srs_ue.py:235-244 | With timestamps in order the average is between the least and greatest rate after the first |
| `RunningAverage.OutOfOrderLeavesTheRange` | retina/agent/src/retina/agent/drivers/srs_ue.py:235-244 | Timestamps and rates for which it is not |
| `RunningAverage.InRangeWhenStepsAgree` | retina/agent/src/retina/agent/drivers/srs_ue.py:235-244 | Whatever the rates, the average is between the least and greatest rate after the first exactly when no step of the timestamps goes against the whole, for all timestamps of which the last is not the first |
| `RunningAverage.SrsUe.Session` | retina/agent/src/retina/agent/drivers/srs_ue.py:137-140 | From start to stop, whatever was there before, the metrics are those of this session's file |
| `PodStartup.CreateDeployment` | retina/orchestrator/src/retina/orchestrator/retina_kubernetes.py:839-893 | Ends at the first pod, in the order met, that is a reason to; returns only a Running pod with the deployment's label; deletes each failed pod met once; aborts the deployment exactly on no resources, too many failures or the deadline |
| `PodStartup.VerdictIsFirstReason` | retina/orchestrator/src/retina/orchestrator/retina_kubernetes.py:846-888 | Each verdict is reached exactly when the first pod that is a reason for any is a reason for it: no labels, or of the deployment and Running, failed for lack of resources, the third failed one of different names, or with a container that waits in vain; and the deadline's exactly when there is no such pod |
| `PodStartup.Examine` | retina/orchestrator/src/retina/orchestrator/retina_kubernetes.py:848-888 | The loop's body for one pod: the verdict, and what it deletes and remembers |
| `PodStartup.NoLabelsEnds` | retina/orchestrator/src/retina/orchestrator/retina_kubernetes.py:848-849 | A pod without labels ends the loop, and the deployment is not aborted |
| `PodStartup.FewFailures` | retina/orchestrator/src/retina/orchestrator/retina_kubernetes.py:874-883 | While the loop goes on it has seen fewer failed pods than MAX_FAILED_PODS_BEFORE_ABORT |
| `PodStartup.DeletesFewPods` | retina/orchestrator/src/retina/orchestrator/retina_kubernetes.py:855-883 | It deletes at most that many pods, and that many exactly when it gives up on the last of them |
| `PodStartup.CreatePod` | retina/orchestrator/src/retina/orchestrator/retina_kubernetes.py:391-442 | The log of creations, looks and deletions is the one the cluster determines, up to a Running pod, a hopeless container or the deadline; apart from the first time, the pod is created only right after a look at a time when the cluster did not have it |
| `PodStartup.LookLeadsTo` | retina/orchestrator/src/retina/orchestrator/retina_kubernetes.py:413-434 | Of every such log: an absent pod is created, a failed one without containers is deleted, and nothing follows a look at a Running one or at another with a container that waits in vain |
| `PodStartup.Poll` | retina/orchestrator/src/retina/orchestrator/retina_kubernetes.py:414-435 | Polls until a verdict, or until the pod is gone |
| `PodStartup.AwaitRemoval` | retina/orchestrator/src/retina/orchestrator/retina_kubernetes.py:424-427 | Looks until the pod is gone, or the deadline |
| `PodStartup.CreatedWhenAbsent` | retina/orchestrator/src/retina/orchestrator/retina_kubernetes.py:398-428 | Of every such log: before each later creation there is a look that does not find the pod, and the cluster then did not have it |
| `PodStartup.DeleteFollowsFailure` | retina/orchestrator/src/retina/orchestrator/retina_kubernetes.py:419-423 | It is deleted exactly after a look, while polling, that finds it failed without containers |
| `PodStartup.RemovedBeforeCreated` | retina/orchestrator/src/retina/orchestrator/retina_kubernetes.py:422-428 | Between a deletion and the next creation a look has found it gone |
| `PodStartup.LogIsDetermined` | retina/orchestrator/src/retina/orchestrator/retina_kubernetes.py:391-442 | Two logs against the same cluster agree as far as both go |
| `Sidebar.FlattenKeepsEntries` | docs/docusaurus.config.js:131-147 | Flattening keeps pages, other leaves and linked categories, in order, each below the same linked categories |
| `Sidebar.FlattenIsFlat` | docs/docusaurus.config.js:133-144 | No category without a link keeps items, at any depth |
| `Sidebar.FlattenIsIdempotent` | docs/docusaurus.config.js:131-147 | Flattening twice is flattening once, and changes nothing exactly on a flat tree |
| `Sidebar.StableSortIsReadmesFirst` | docs/docusaurus.config.js:157-167 | Sorting by the comparator is: READMEs in their order, then the others in theirs |
| `Sidebar.SortedIsReadmesFirst` | docs/docusaurus.config.js:157-167 | Any sequence ordered by the comparator is its READMEs followed by its other items |
| `Sidebar.ReadmePages` | docs/docusaurus.config.js:157-160 | READMEs are the page README and the pages called so in some folder |
| `Sidebar.SortIsStable` | docs/docusaurus.config.js:150-168 | At each level the READMEs keep their order, and so do the others, themselves sorted |
| `Sidebar.SortKeepsEntries` | docs/docusaurus.config.js:150-168 | Sorting permutes the entries, and leaves each below the same categories |
| `Sidebar.SortSorts` | docs/docusaurus.config.js:150-168 | READMEs come first at every level, and a flat tree stays flat |
| `Sidebar.SortIsIdempotent` | docs/docusaurus.config.js:150-168 | Sorting twice is sorting once, and changes nothing exactly when READMEs come first everywhere |
| `Sidebar.SidebarIsNormal` | docs/docusaurus.config.js:170-171 | The sidebar has the tree's entries, is flat with READMEs first, and generating it again changes nothing |
| `Sidebar.FlattenMustComeFirst` | docs/docusaurus.config.js:170-171 | In the other order a README can end up after another page |

## Left out

- WebSocket: message ids are numbers here and texts on the wire; reconnects, closing, empty and unparsable messages are not modelled.
- WebSocket.AmarisoftWebSocket.SendCommand: the text on the wire and a connection that breaks while sending are not modelled.
- WebSocket.AmarisoftWebSocket.RegisterEvent: the command it then sends is one of the modelled senders.
- UeLifecycle: the simulator mode, telephone numbers and slice differentiators, the metrics file, remote drivers and the time spent waiting are not modelled; a configured IMSI is a number when it consists of digits, while Python's `int` also accepts signs, spaces and underscores.
- UeLifecycle.LaunchEnds: no time bound for the license retries, since the remaining time can become 0, which selects the default timeout again.
- Orchestration: Kubernetes resource and node reservations are a preparing step that creates data ConfigMaps; the pods of a deployment disappear one by one and not with it; deletion by user name and of everything is left out because it breaks the assumption of one deleter per id.
- OrchestrationResults.DeletionStartsAtRest: about the id of the failed creation itself; `Sweeping.SweepCleansWhenAtRest` is about the others.
- PortReservation.ReservePort: the random index is any index, and a request that raises ends the thread.
- LicenseSync: resources of models other than amarisoft, which the sort never sees, and failing requests are not modelled; `LicenseSync.RetinaCluster.Sync` requires unique resource names, which the cluster's records have.
- MarkerExpression: the limits of Python's parser on nesting are not modelled.
- Pipelines: job variables, YAML text, how a test case comes to its markers, include paths and the templates are not modelled; a folder's children come sorted.
- LogFollower: decoding of partial UTF-8 sequences, universal newlines and the removal of escape sequences are not modelled; the end of following by a dead process is the end of the rounds.
- FollowedSearch.FollowedFilesAgree: for patterns that look at one line at a time; one that looks across lines meets the line breaks added between pieces.
- LogSearch.ReadFromLog: regular expressions are an arbitrary function from a text to a match and its groups.
- StdoutReader.ReadFromProcessStdout: the option to keep line breaks is not modelled.
- RunnerManager: the mode is lower-cased as ASCII; an administrator who edits tags is not modelled, nor are two runs at the same time; how nodes come to be blocked is a parameter.
- RunningAverage: rates are real numbers; columns that are not numbers, and negative error rates, are not modelled.
- PodStartup: the message and event texts, the watch before the first look, and a deadline that never comes are not modelled; deleting a pod is a request that the loops only send.
- Sidebar: the items are values, so that the source updates each category's items in place is not modelled; a category without a list of items is a leaf.
- Decimal: plain digits only.
- Layering of parameters, conversion of resources, client list reopening, cell arrays and IP offsets of UEs, argument parsing, report and pcap analysis: easier members without a protocol of their own.
