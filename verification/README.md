# AgentConsole relay: a verified model

AgentConsole relays between a Codex app server (a child process), a client daemon and a gateway that
serves consoles. The hard part is state: every hop keeps tables about turns, threads, approvals and
commands, and the tables of neighbouring hops have to agree although each is updated on its own. This
project models those tables and the messages between them, and proves what the hops may rely on.

`dafny verify dfyconfig.toml` checks everything.

## Layout

| files | what they model |
|---|---|
| `Text`, `Activity`, `Domain`, `Sorting` | Go strings and their trimming and splitting, timestamps, the entities, sorted keys |
| `Base64Url`, `Identifiers`, `ApprovalSession` | public thread and approval identifiers (sections 3.2, 3.5 and 5 of RFC 4648), the client's approval context |
| `Routing`, `RuntimeIndex`, `IndexRoutes`, `MachineRegistry` | the gateway's three stores |
| `ClientHub`, `HubAgreement`, `HubEffects`, `HubHistory`, `IndexEdits` | the gateway's client hub, its agreement with the stores, what each message leaves there, what whole runs leave, and edits of the index behind its back |
| `CommandProtocol`, `CommandCourse` | commands across gateway and client, as fine-grained steps, and the course of one that nothing interferes with |
| `ClientCommands`, `CommandReplies`, `CommandHandling` | the client's command handler arm by arm; what it carries out and tells; the protocol with that handler in it |
| `StdioCorrelator`, `ReadLoopStall` | the JSON-RPC correlator between client and child process, and which messages make it wait for itself |
| `CodexStream`, `CodexStreamLaws`, `CodexTurns`, `TimelineNumbering` | the notification stream: counters, texts, active turns, errors, approvals |
| `ActiveTurnRelay` | active turns from the child process to the gateway |
| `ThreadRuntime`, `RuntimeUpdates` | desired and applied runtime preferences |
| `Supervisor`, `SupervisorLaws`, `SupervisorEffects` | the supervisor of agents and the runtime registry |
| `TimelineModel`, `TimelineTexts`, `TimelineReplay`, `ProgressText`, `TimelineDelivery` | the console's timeline, what its messages say, and when the client's numbering lets a replay show what was live |
| `ConsoleHub`, `ConsoleDelivery` | fan-out to consoles: the hub with its bounded queues, and what consoles are delivered when broadcasts overlap |

An object that the program updates in place is a class whose methods are proved against functions on
its value; the laws are lemmas about those functions and about runs of them. Where goroutines
interleave, the model is a state machine whose steps are the critical sections; a run is a sequence of
steps, and the lemmas hold for every run.

## What is assumed of the surroundings

- Thread identifiers are trimmed, and one snapshot names no thread twice (`HubAgreement.Proper`).
  `HubAgreement.StoreKeepsCopyIff` says exactly which lists break the copy without it.
- A thread lives on one machine, and names that machine or none (`IndexRoutes.Allowed`, and the
  precondition of `SnapshotRoutesAlike`): public thread identifiers do not contain the machine.
- Identifiers of timeline events are not shared between turns (`TimelineReplay.Belongs`).
- Runtimes name threads in their own form, not in the public one, and notifications that start or end
  a turn carry its identifier (`ActiveTurnRelay.Proper`).
- An answer that reports no runtime preferences leaves those of the server as they were
  (`ThreadRuntime.Enabled`).

## Where the code does not keep what one might expect

- The read loop of the JSON-RPC correlator does block: the end of a turn makes the daemon list the
  threads of every runtime from within the loop that would have to read the answer, so the loop stands
  still until the call's timer runs out, nobody else's answer is read meanwhile, and the refreshed
  snapshot is not sent (`StdioCorrelator.CallInHandlerStarvesOthers`; the exact conditions are
  `StdioCorrelator.DispatchWaitsIffItCalls` and `ReadLoopStall.TurnEndsStallTheReadLoop`).
- A successful `StartTurn` does not always leave the server with what is desired: after a start that
  failed although it had reached the server, going back to the old preferences sends nothing
  (`ThreadRuntime.LostAnswerMisleads`; the exact conditions are `ThreadRuntime.StartAppliesDesiredIff`
  and, for a client that cannot know which starts reached the server,
  `ThreadRuntime.StartAppliesWhateverWasLostIff`).
- Two agents of one machine that ask for an approval under the same raw identifier share one key: the
  answer to the first goes to the second (`ApprovalSession.SharedIdentifierMisdelivers`,
  `ClientCommands.SharedApprovalGoesToTheSecond`; the exact condition is
  `ApprovalSession.AnswerReachesTheAskerIff`).
- An HTTP handler that upserts a thread into the index with a later activity than the hub has makes the
  index differ from the hub, and the hub's next store does not put that right
  (`IndexEdits.NextStoreRestoresIff`).
- A failed `StartAll` also stops agents that were running before, namely those that sort before the
  agent that could not be started (`SupervisorLaws.FailedStartAllLeaves`, `FailedStartAllSparesIff`).
- White space at the end of a plain progress delta is lost when another delta follows
  (`ProgressText.PlainDeltasConservedIff`).
- An approval answered after its turn has ended, or a turn identifier that is started again, gets a
  timeline number the turn has used already (`TimelineNumbering.LateAnswerRepeats`,
  `RestartedTurnRepeats`, `NumbersRepeatAfterTheEnd`; the exact conditions are `NumbersDistinctIff` and
  `DistinctIffNothingIsLate`).
- A timeline event may be shown after events of its turn with later numbers, whether the read loop shows it
  or an answer to an approval, because drawing a number and showing the event are not one critical section;
  then a replay orders the turn differently from the live view (`TimelineNumbering.LoopIsOvertaken`; the
  exact condition is `TimelineNumbering.NumbersAscendIff`).
- Broadcasts overlap: two consoles may get two frames in different orders, and a console that is dropped for
  its full queue may have a gap before its last frames (`ConsoleDelivery.ConsolesMayDisagree`,
  `DroppedConsoleMayHaveAGap`; the exact condition is `ConsoleDelivery.GaplessIff`).
- A completion without a turn identifier, or a restart of an agent with an active turn, leaves the
  gateway with an active turn the client does not have (`ActiveTurnRelay.NamelessCompletionLeavesTheTurn`,
  `RestartWithATurnLeavesIt`; the exact condition is `RestartKeepsBackedIff`).
- A public approval identifier in a non-canonical encoding is filed under a key of its own
  (`Identifiers.SecondSpellingHasSecondKey`).
- Text of a final message that comes with the start of its item, before the turn has a message of the
  agent, is not shown; it is where there is one (`TimelineTexts.AnswerPieces`).
- In `mergePlainProgressSnapshot` the test of a section for the snapshot can never succeed
  (`ProgressText.SectionHoldsNoMore`).

## Model

| member | source | states |
|---|---|---|
| Base64Url.RoundTrip | common/domain/thread.go:61-87 | decoding inverts encoding for every byte string, and encoded text never contains the separator, so encoded parts can be joined with it |
| Base64Url.DecodingIsNotInjective | gateway/internal/websocket/client_hub.go:495-512 | two texts decode to the same bytes, which is why only decode-after-encode is claimed |
| Identifiers.ThreadIDRoundTrip | common/domain/thread.go:61-87 | a public thread identifier decodes to the very agent and thread it was made from |
| Identifiers.PublicThreadIDInjective | common/domain/thread.go:61-69 | two threads of any two agents never share a public identifier |
| Identifiers.ResolveInvertsPublicThreadID | common/domain/thread.go:89-120 | resolving a public identifier gives back agent and thread unless the caller insists on another agent, and then fails with a mismatch |
| Identifiers.PublishingIsStable | client/cmd/client/main.go:818-832 | publishing an identifier that is public already changes nothing, on behalf of whichever agent |
| Identifiers.ApprovalKeyIdempotent | gateway/internal/websocket/client_hub.go:474-512 | normalising an approval identifier twice is normalising it once, for every machine and text |
| Identifiers.ApprovalIdentitySurvives | client/cmd/client/main.go:460-520 | raw and public form of an approval are filed under one key, and from that key the runtime is handed the raw identifier |
| Identifiers.ApprovalKeysDistinct | gateway/internal/websocket/client_hub.go:474-493 | different approvals, on one machine or on two, have different keys |
| Identifiers.PublicTextSharesKeyIffCanonical | gateway/internal/websocket/client_hub.go:474-512 | a public text shares the key of the raw identifier it decodes to exactly when it is the canonical encoding |
| Identifiers.SecondSpellingHasSecondKey | gateway/internal/websocket/client_hub.go:474-512 | a concrete identifier with a second spelling and hence a second key |
| ApprovalSession.ClientSession.ApprovalRequired | client/cmd/client/main.go:399-438 | the context is filed under the public identifier, whether or not the frame can be sent |
| ApprovalSession.ClientSession.ApprovalResolved | client/cmd/client/main.go:406-458 | missing thread and turn are filled in from the context, which is dropped only once the frame was sent |
| ApprovalSession.ClientSession.RawApprovalRequestID | client/cmd/client/main.go:471-491 | decoding first, then what the session remembers, then the text itself unless it looks public |
| ApprovalSession.AnswerReachesTheAskerIff | client/cmd/client/main.go:399-491 | after any requests and resolutions an answer reaches the agent, thread and turn that asked exactly if the last step since that named the key, if any, came from the same agent, thread and turn |
| ApprovalSession.AnswerReachesTheAsker | client/cmd/client/main.go:399-491 | where the asker does not ask again, exactly if no other agent, thread or turn has asked under the key since and no sent resolution names it |
| ApprovalSession.AskedAgainIsReached | client/cmd/client/main.go:406-458 | an asker that asks again after a resolution is reached again, which is why only the last step that names the key counts |
| ApprovalSession.SharedIdentifierMisdelivers | client/cmd/client/main.go:419-448 | two agents with one raw identifier: the answer to the first goes to the second |
| ApprovalSession.ResolvedIsForgotten | client/cmd/client/main.go:406-458 | a resolution in either form clears the context |
| Activity.LatestIsLeastUpperBound | gateway/internal/websocket/client_hub.go:812-836 | the later of two activities is their least upper bound |
| Activity.LatestIsSemilattice | gateway/internal/runtimeindex/store.go:239-263 | merging activities is idempotent, commutative and associative, and indifferent to normalisation of its arguments |
| Routing.Router.ReplaceSnapshot | gateway/internal/routing/router.go:31-55 | the machine's routes are replaced by those of the listed threads |
| Routing.WithThreadsLooksUp | gateway/internal/routing/router.go:31-55 | after a snapshot a listed thread has the route of one of its listings, and any other the one it had |
| Routing.ReplacedFramesOtherMachines | gateway/internal/routing/router.go:31-55 | threads that a snapshot does not list keep their route exactly if it leads to another machine |
| RuntimeIndex.MergeActivities | gateway/internal/runtimeindex/store.go:35-47 | each incoming thread carries the later of its own activity and the one stored for it |
| RuntimeIndex.Store.ReplaceSnapshot | gateway/internal/runtimeindex/store.go:26-69 | threads merged, environment and the machine's routes replaced |
| RuntimeIndex.Store.UpsertThread | gateway/internal/runtimeindex/store.go:71-102 | the first entry of the thread is replaced in place, keeping the later activity, or the thread is appended; its route is set |
| RuntimeIndex.Store.RemoveThread | gateway/internal/runtimeindex/store.go:104-122 | every entry of the thread leaves the list, and its route the table |
| RuntimeIndex.WithoutKeepsTheOthers | gateway/internal/runtimeindex/store.go:104-122 | exactly the threads of other identifiers remain |
| RuntimeIndex.Store.MarkMachineUnknown | gateway/internal/runtimeindex/store.go:141-159 | every thread of the machine has status unknown and nothing else changes |
| IndexRoutes.AnyScanFindsTheRoute | gateway/internal/api/server.go:130-148 | where table and lists agree, a scan of any machine's list that finds the thread finds the route of the table |
| IndexRoutes.TableAgreesWithScan | gateway/internal/runtimeindex/store.go:26-159 | after any sequence of replace, upsert, remove, clear and mark-unknown the route table answers like a scan of the lists |
| IndexRoutes.SnapshotRoutesAlike | gateway/internal/runtimeindex/store.go:49-68 | two tables that receive one snapshot hold the same routes to its machine, whatever they held before |
| MachineRegistry.Store.Upsert | gateway/internal/registry/store.go:52-74 | a machine is stored with what the snapshot leaves out taken from before |
| MachineRegistry.Store.MarkOffline | gateway/internal/registry/store.go:76-95 | the machine is offline, its runtime unknown and every agent stopped |
| MachineRegistry.LogKeepsNewest | gateway/internal/registry/store.go:162-179 | after any number of appends, to any threads, a thread's log is the newest 500 of its own events in order |
| ClientHub.ClientHub.HandleRegister | gateway/internal/websocket/client_hub.go:203-254 | a connection gives up another machine it owned, with all that goes with it, and owns the new one |
| ClientHub.ClientHub.DisconnectClient | gateway/internal/websocket/client_hub.go:615-630 | only an owner's disconnect cleans up; the waiters to fail are those taken out |
| ClientHub.ClientHub.CleanupMachine | gateway/internal/websocket/client_hub.go:632-666 | threads unknown in hub and index, the machine's waiters, routes and online state gone |
| ClientHub.ClientHub.TakeWaiters | gateway/internal/websocket/client_hub.go:642-649 | exactly the machine's waiters leave the table |
| ClientHub.ClientHub.HandleThreadSnapshot | gateway/internal/websocket/client_hub.go:683-739 | an owner's snapshot replaces list and routes, keeping later activities; others change nothing |
| ClientHub.ClientHub.HandleEnvironmentSnapshot | gateway/internal/websocket/client_hub.go:683-739 | an owner's environment replaces the old one in hub and index |
| ClientHub.ClientHub.HandleMachineSnapshot | gateway/internal/websocket/client_hub.go:683-739 | an owner's machine is registered with its gaps filled |
| ClientHub.ClientHub.SetActiveTurn | gateway/internal/websocket/client_hub.go:1111-1138 | turn recorded, first thread of the name active and touched, in hub and index |
| ClientHub.ClientHub.ClearActiveTurn | gateway/internal/websocket/client_hub.go:1140-1169 | only this turn, or any if none is named, is cleared; the thread is idle and touched |
| ClientHub.ClientHub.ApplyTimelineEvent | gateway/internal/websocket/client_hub.go:358-389 | the event is logged, and an approval in it opens or closes both approval tables |
| ClientHub.ClientHub.ApplyCompletedCommand | gateway/internal/websocket/client_hub.go:873-984 | each kind of result edits snapshot, index and routes as its own function says |
| ClientHub.ClientHub.RemoveThreadSnapshot | gateway/internal/websocket/client_hub.go:1171-1194 | the thread leaves list, index and active turns |
| ClientHub.ClientHub.UpsertEnvironmentResource | gateway/internal/websocket/client_hub.go:1196-1237 | the first matching resource is merged in place, or the resource is appended |
| ClientHub.ClientHub.RemoveEnvironmentResource | gateway/internal/websocket/client_hub.go:1239-1262 | every resource of that kind and identifier leaves hub and index |
| ClientHub.ClientHub.HandleEvent | gateway/internal/websocket/client_hub.go:256-330 | one event of an owner takes hub and stores to the value the event functions give; anyone else's changes nothing |
| ClientHub.MergeThreadActivities | gateway/internal/websocket/client_hub.go:772-794 | the hub's own merge of activities |
| ClientHub.TouchThread | gateway/internal/websocket/client_hub.go:1122-1131 | the first thread of the name gets status and activity, and no other changes |
| ClientHub.UpsertThread | gateway/internal/websocket/client_hub.go:1079-1109 | as in the index: in place with the later activity, or appended |
| HubAgreement.IndexIsFaithfulInEveryRun | gateway/internal/websocket/client_hub.go:741-794 | after every hub step of every run the index holds, for every machine, the hub's own threads in order, field by field up to timestamp spelling, and its environment |
| HubAgreement.MergedCopies | gateway/internal/runtimeindex/store.go:26-47 | merging a second time, on the index's side, changes nothing but spelling |
| HubAgreement.ActivityNeverGoesBackwards | gateway/internal/websocket/client_hub.go:772-836 | while a thread stays listed its activity never goes backwards, in hub and index, over any run |
| HubAgreement.StoreKeepsCopyIff | gateway/internal/runtimeindex/store.go:26-47 | a list of trimmed names is still copied after its next store exactly when no thread is older than its last namesake |
| HubAgreement.RepeatedNameBreaksTheCopy | gateway/internal/runtimeindex/store.go:26-47 | a concrete snapshot with a repeated name that breaks the copy one store later |
| IndexEdits.NextStoreRestoresIff | gateway/internal/api/server.go:1490-1498 | after an HTTP handler has upserted a thread into the index, the hub's next store makes it a copy again exactly if the edit's activity is not after the one the hub stores |
| IndexEdits.NextStoreUndoesRemoval | gateway/internal/api/server.go:1712-1717 | after a removal it always does |
| HubAgreement.ApprovalTablesAgreeInEveryRun | gateway/internal/websocket/client_hub.go:299-389 | approval routes and pending approvals have the same identifiers and owners at every handler boundary, however approvals arrive and whoever answers |
| ClientHub.ClientHub.ApprovalAnswered | gateway/internal/api/server.go:1915-1920 | the HTTP handler closes both approval tables |
| HubAgreement.OneMachinePerConnection | gateway/internal/websocket/client_hub.go:203-254 | in every run a live connection owns at most one machine, the one it last registered |
| HubAgreement.SupersededDisconnectChangesNothing | gateway/internal/websocket/client_hub.go:615-630 | a connection that owns nothing disconnects without a trace |
| HubAgreement.OwnerDisconnectIsConfined | gateway/internal/websocket/client_hub.go:615-666 | an owner's disconnect ends exactly its machine's waiters and routes, marks exactly its threads unknown, takes the machine offline and stops its agents, and leaves every other machine as it was |
| HubAgreement.MovingIsLeaving | gateway/internal/websocket/client_hub.go:209-232 | a connection that registers another machine does what it would by disconnecting and registering anew |
| HubAgreement.SnapshotRoutesAlike | gateway/internal/websocket/client_hub.go:683-758 | right after a thread snapshot router and index route the machine's threads alike |
| HubEffects.SnapshotShows | gateway/internal/websocket/client_hub.go:683-794 | after an owner's snapshot the hub lists the threads that were sent, in order and with their contents, the owner filled in, each with the later of its own activity and the one listed under its name before; the index lists the same |
| HubEffects.SnapshotRoutes | gateway/internal/routing/router.go:31-55 | a listed name then leads to the machine and agent of a thread sent under it, any other where it led before unless that was here |
| HubEffects.EnvironmentShows | gateway/internal/websocket/client_hub.go:683-758 | after an owner's environment snapshot hub and index list the resources that were sent, the owner filled in, and the threads as before |
| HubEffects.MachineShows | gateway/internal/websocket/client_hub.go:683-739 | the registry shows the machine as it was sent, with the defaults of the hub and, where it says nothing, the runtime and agents known before; no other machine changes |
| HubEffects.RegisteredMachineShows | gateway/internal/websocket/client_hub.go:203-254 | a connection that registers is the owner, and its machine online under the name given |
| HubEffects.TurnStartShows | gateway/internal/websocket/client_hub.go:332-356 | in either form of the event: the turn is active, exactly its thread shows as active with the later activity, and the index shows the same |
| HubEffects.TurnEndShows | gateway/internal/websocket/client_hub.go:332-356 | in either form: only the turn named, or any if none is, ends; exactly its thread shows as idle, in hub and index |
| HubEffects.CreatedThreadIsServed | gateway/internal/websocket/client_hub.go:873-921 | a created or resumed thread is listed with its contents, in its namesake's place or at the end and with the latest activity, by hub and index; both tables route it to its machine and agent |
| HubEffects.ArchivedThreadIsGone | gateway/internal/websocket/client_hub.go:1171-1194 | the one thread of the name leaves list and index, the others stay in order, and it has no active turn; the router alone keeps its route |
| HubEffects.SkillSetShows | gateway/internal/websocket/client_hub.go:1196-1237 | the first entry of the skill shows as enabled or disabled, otherwise as it was, or a new one is added; nothing else changes |
| HubEffects.UninstalledPluginIsGone | gateway/internal/websocket/client_hub.go:1239-1262 | every entry of the plugin is gone and the other resources stay in order, in hub and index |
| HubEffects.OnlyAnswersEndWaits | gateway/internal/websocket/client_hub.go:278-298 | an answer ends the wait for its own request, and no other event of an owner ends one |
| HubEffects.IndexedThreadShows | gateway/internal/runtimeindex/store.go:71-102 | an edit lists the thread with its contents and routes it, and leaves the rest of the index as it was |
| HubEffects.UnindexedThreadIsGone | gateway/internal/runtimeindex/store.go:104-122 | a removal takes the one thread of the name and its route, and leaves the rest |
| HubEffects.MarkedAndCleared | gateway/internal/runtimeindex/store.go:124-159 | marking touches exactly the machine's threads, clearing leaves nothing of the machine and all of the others |
| HubHistory.OwnerIffSeated | gateway/internal/websocket/client_hub.go:203-254 | in every run a machine's owner is exactly the connection that registered it and has not since been replaced, moved or disconnected |
| HubHistory.PendingIffLastOpened | gateway/internal/websocket/client_hub.go:299-389 | in every run an approval is in both tables exactly if the last event accepted from an owner or answer over HTTP that named its key opened it, and then with that event's machine, thread, turn, item and kind, in the older form and on the timeline alike |
| HubHistory.LogHoldsTheNewest | gateway/internal/websocket/client_hub.go:358-370 | in every run a thread's log is the newest 500 of its timeline events accepted from owners, in order of arrival |
| HubHistory.ActiveTurnFollowsEvents | gateway/internal/websocket/client_hub.go:332-356 | in every run a thread's active turn is what the starts, ends and archivings accepted from owners make of it, one after the other; nothing else touches it |
| CommandProtocol.OneHolderOneSend | gateway/internal/websocket/client_hub.go:522-601 | in every interleaving a request has at most one holder, its channel gets at most one send, and no result is dropped because a channel was full |
| CommandProtocol.SuccessIsTheReply | gateway/internal/websocket/client_hub.go:538-601 | a success or rejection that SendCommand returns is the one reply a client emitted for that very request |
| CommandProtocol.AnsweredOnce | client/cmd/client/main.go:980-1003 | a command a client reads has never been answered before, so each is answered once |
| CommandProtocol.StepKeepsInvariant | gateway/internal/websocket/client_hub.go:522-681 | issue, lookup, registration, write, reply, a client that fails to reply, the owner check and the later taking of the waiter, timeout, disconnect and takeover all keep the protocol's invariant |
| CommandProtocol.DisconnectTakesItsWaiters | gateway/internal/websocket/client_hub.go:615-666 | an owner's disconnect takes every waiter of its machine, to be told so, and no other |
| CommandProtocol.DeliveryArrives | gateway/internal/websocket/client_hub.go:522-536 | a result meant for a waiter arrives in its channel |
| CommandCourse.CallIsSent | gateway/internal/websocket/client_hub.go:538-585 | a call to a machine with a quiet connection puts its command on the connection that owns the machine |
| CommandCourse.AnswerIsReturned | gateway/internal/websocket/client_hub.go:522-601 | undisturbed, the client's reply is what the call returns, a result as a success and a refusal as one, and no waiter is left |
| CommandCourse.DisconnectIsReturned | gateway/internal/websocket/client_hub.go:615-681 | if the owner disconnects instead the call returns that its machine has gone |
| CommandCourse.MoveIsReturned | gateway/internal/websocket/client_hub.go:203-232 | and so it does if the owner registers another machine |
| CommandCourse.UnownedIsReturned | gateway/internal/websocket/client_hub.go:538-556 | a call to a machine nobody owns returns at once |
| CommandCourse.SupersededReplyIsPassedOver | gateway/internal/websocket/client_hub.go:256-259 | a reply on a connection that no longer owns its machine takes no waiter and tells no call |
| CommandCourse.LateReplyIsPassedOver | gateway/internal/websocket/client_hub.go:522-536 | nor does one whose call has returned |
| ClientCommands.Session.ResolveAgentID | client/cmd/client/main.go:1006-1020 | a named agent is taken as it stands without a supervisor and if recorded with one; without a name the only agent there is |
| ClientCommands.Session.CollectManagedSnapshot | client/cmd/client/main.go:1821-1857 | collecting fails exactly if some registered runtime does not list its threads or describe its environment |
| ClientCommands.Session.CreateThread | client/cmd/client/main.go:1023-1052 | rejects an unreadable payload, an unresolved agent and a failed creation; otherwise replies and refreshes the threads |
| ClientCommands.Session.ReadThread | client/cmd/client/main.go:1053-1171 | the arms that read a thread or its settings: four ways to reject, and nothing after the reply |
| ClientCommands.Session.ChangeThread | client/cmd/client/main.go:1082-1198 | the same for resuming and archiving, with a refresh of the threads |
| ClientCommands.Session.RunTurn | client/cmd/client/main.go:1199-1311 | a turn whose runtime streams stops after the reply; any other is told from its result, delta by delta, up to the first send that fails |
| ClientCommands.Session.InterruptTurn | client/cmd/client/main.go:1312-1350 | the reply, the end of the turn and a refresh |
| ClientCommands.Session.RespondApproval | client/cmd/client/main.go:1351-1383 | the answer goes to the remembered agent under the raw identifier; an event shown on the way comes before the reply, and an error of its send is dropped |
| ClientCommands.Session.ManageRuntimes | client/cmd/client/main.go:1384-1468 | refused without a supervisor; otherwise the reply and three snapshots |
| ClientCommands.Session.ReloadServers | client/cmd/client/main.go:1646-1670 | reloads in order and rejects at the first runtime that fails, after others may have reloaded |
| ClientCommands.Session.HandleCommandEnvelope | client/cmd/client/main.go:1005-1733 | every arm sends the script of its command up to the first failed send: at most one reply, exactly one unless a send failed, for this request, and completed exactly if the command was carried out |
| ClientCommands.ExactlyOneReply | client/cmd/client/main.go:1005-1733 | of the frames a connection carries before it breaks exactly one is a reply if it holds until then, and none otherwise |
| CommandReplies.MeansIffResolved | client/cmd/client/main.go:1006-1020 | the agent a payload means: the one it names, recorded if there is a supervisor, or the only one there is |
| CommandReplies.CarriedOutIffAsked | client/cmd/client/main.go:1005-1733 | a command is carried out exactly if it can be read and the operation it asks for, of the agent and on the raw thread or request it names, succeeds; what is carried out is that operation |
| CommandReplies.PublicThreadReachesItsOwner | client/cmd/client/main.go:1053-1081 | a command under a public thread identifier is carried out on the agent and thread it was made from |
| CommandReplies.AnswerIsForTheAsker | client/cmd/client/main.go:1351-1383 | an answer that reaches the asker is carried out on the agent that asked, under the identifier it asked with |
| CommandReplies.AnswerClosesWhatWasAsked | client/cmd/client/main.go:1370-1383 | and closes the approval under its public identifier, on the thread and turn that asked unless it names others |
| CommandReplies.RefusalIsExplained | client/cmd/client/main.go:1005-1733 | a refusal gives the reason that holds, and names the thread the command was for |
| CommandReplies.ReplyNamesItsSubject | client/cmd/client/main.go:1023-1350 | the reply names the agent and thread the operation returned, for whoever resolves it; a runtime read or update, an archiving and an approval answer name what the command named |
| CommandReplies.CommandIsTold | client/cmd/client/main.go:1199-1350 | after the reply a turn that is not streamed is told as its deltas in order and its end, each under its own agent and thread, and each command is followed by the snapshots it calls for |
| CommandReplies.HandlerFailsIff | client/cmd/client/main.go:1735-1857 | the handler reports an error of its own exactly if a command was carried out whose snapshot some runtime will not help collect |
| ClientCommands.SharedApprovalGoesToTheSecond | client/cmd/client/main.go:1351-1370 | the answer to an approval whose identifier a second agent has used since is carried out on that agent |
| CommandHandling.HandlerIsOneReply | client/cmd/client/main.go:980-1003 | a run of the handler, whatever the command and wherever its connection breaks, is one reply step of the protocol for the command at the head of the connection, or a failure to reply that stops the client |
| CommandHandling.NoRequestIsAnsweredTwice | client/cmd/client/main.go:980-1733 | in every run of gateway and clients with the handlers in it no request is answered twice on any wire |
| CommandHandling.HandledCommandIsAnswered | client/cmd/client/main.go:980-1733 | a command that is handled had no answer before and has exactly its arm's answer afterwards, or none if the connection broke before it |
| StdioCorrelator.SendsNeverBlock | client/internal/agent/codex/stdio_runner.go:251-282 | in every interleaving a send of the read loop finds its channel free, also while it holds the lock |
| StdioCorrelator.HandlerCallsOnlyFail | client/internal/agent/codex/stdio_runner.go:295-310 | a call that a handler makes on its own runner gets no answer: it fails to write or times out |
| StdioCorrelator.DispatchWaitsIffItCalls | client/internal/agent/codex/stdio_runner.go:223-239 | in every run a dispatch waits for a timer exactly if a call its handler made on its own runner was written; never if it makes none |
| StdioCorrelator.NothingIsReadMeanwhile | client/internal/agent/codex/stdio_runner.go:201-265 | until that timer runs out the loop reads no response, and no call gets a result |
| StdioCorrelator.CallInHandlerStarvesOthers | client/internal/agent/codex/stdio_runner.go:116-156 | a reachable state, a call under way and the loop inside a handler's call, from which every continuation starves the first call until the timer runs out |
| ReadLoopStall.OnlyTurnEndsRefresh | client/cmd/client/main.go:683-719 | of all messages only the end of a turn that names thread and turn refreshes the thread snapshot |
| ReadLoopStall.HandlerCallsIff | client/cmd/client/main.go:1821-1857 | run step by step within the correlator, the handler of a message calls on its own runner exactly if the message is such an end, the frames about it could be sent, and every runtime listed before its own answered |
| ReadLoopStall.TurnEndsStallTheReadLoop | client/cmd/client/main.go:683-691 | in every run the read loop waits for a timer to handle a message exactly in that case, unless a write failed, and what was asked is never answered |
| StdioCorrelator.OneResultOfItsOwn | client/internal/agent/codex/stdio_runner.go:116-156 | a call gets at most one result, and a value it returns was read under its own identifier |
| StdioCorrelator.StrayResponseIgnored | client/internal/agent/codex/stdio_runner.go:242-257 | late, duplicate and unknown responses change nothing |
| StdioCorrelator.FailPendingTerminates | client/internal/agent/codex/stdio_runner.go:273-282 | from any reachable state at the end of the stream the read loop gets through alone, in one send per pending call |
| StdioCorrelator.DrainedTellsEveryone | client/internal/agent/codex/stdio_runner.go:273-282 | every pending call has then been told, once, that the stream has ended |
| StdioCorrelator.LateCallsOnlyTimeOut | client/internal/agent/codex/stdio_runner.go:116-156 | a call made after the end of the stream can only fail to write or time out |
| StdioCorrelator.CallIsWritten | client/internal/agent/codex/stdio_runner.go:116-156 | an undisturbed call waits in the table under a new identifier |
| StdioCorrelator.ResponseIsReturned | client/internal/agent/codex/stdio_runner.go:116-156 | the response to a waiting call is what the call returns, and the loop reads on |
| StdioCorrelator.EndIsReturned | client/internal/agent/codex/stdio_runner.go:273-282 | a call that waits when the stream ends returns that it is closed |
| StdioCorrelator.StdioRunner.FailPending | client/internal/agent/codex/stdio_runner.go:273-282 | the loop over the table leaves exactly the drained table |
| StdioCorrelator.StdioRunner.Deliver | client/internal/agent/codex/stdio_runner.go:251-263 | take and send are the two steps of the protocol |
| CodexStream.TrimSharedPrefix | client/internal/agent/codex/appserver_client.go:1382-1394 | what remains of the completed text after the longest common prefix |
| CodexStream.SharedPrefixIsTheOnly | client/internal/agent/codex/appserver_client.go:1382-1394 | the longest common prefix is the only length at which the texts agree up to there and differ or end there |
| CodexStream.AppServerClient.HandleAgentMessageDelta | client/internal/agent/codex/appserver_client.go:514-573 | a delta is accumulated, numbered twice and emitted twice, in order |
| CodexStream.AppServerClient.HandleItemStarted | client/internal/agent/codex/appserver_client.go:586-593 | a number is drawn whether or not an event is emitted; an agent message has its kind remembered, any other item shows progress |
| CodexStream.AppServerClient.HandleItemCompleted | client/internal/agent/codex/appserver_client.go:594-619 | a completed message leaves the table and the missing text is emitted |
| CodexStream.AppServerClient.TakeCompletedAgentMessageDelta | client/internal/agent/codex/appserver_client.go:1061-1068 | the remembered text is taken out and compared with the completed one |
| CodexStream.AppServerClient.HandleError | client/internal/agent/codex/appserver_client.go:620-647 | an error that will not be retried is remembered for the turn and shown |
| CodexStream.AppServerClient.HandleTurnStarted | client/internal/agent/codex/appserver_client.go:495-513 | delta counter, error and active turn are set before the two events go out |
| CodexStream.AppServerClient.HandleTurnCompleted | client/internal/agent/codex/appserver_client.go:648-707 | everything of the turn is forgotten, and the terminal event is numbered before its counter is |
| CodexStream.AppServerClient.DropTexts | client/internal/agent/codex/appserver_client.go:675-679 | exactly the texts filed under the turn leave the table |
| CodexStream.AppServerClient.HandleNotification | client/internal/agent/codex/appserver_client.go:493-750 | every notification takes the client and the emitted events to what its function says |
| CodexStream.AppServerClient.HandleServerRequest | client/internal/agent/codex/appserver_client.go:752-841 | the approval is pending and announced |
| CodexStream.AppServerClient.RespondApproval | client/internal/agent/codex/approvals.go:34-73 | nothing changes unless the answer was supported, the approval pending and the answer written |
| CodexStreamLaws.StreamIsConserved | client/internal/agent/codex/appserver_client.go:514-619 | under any interleaving the deltas of a message make up its completed text exactly when what was streamed is a prefix of it; in general the last delta is the remainder after the longest common prefix |
| CodexStreamLaws.StreamIsConservedWithinATurn | client/internal/agent/codex/appserver_client.go:514-619 | the same, its conditions stated on the notifications alone |
| CodexStreamLaws.RemainderCompletes | client/internal/agent/codex/appserver_client.go:1382-1394 | text and remainder make up the completed text exactly when the text is a prefix of it |
| CodexStreamLaws.KeptIsStreamed | client/internal/agent/codex/appserver_client.go:1051-1059 | until its completion or the end of its turn the text kept for a message is the text streamed for it |
| CodexStreamLaws.DeltasNumberedFromOne | client/internal/agent/codex/appserver_client.go:495-619 | between its start and its end the delta events of a turn carry exactly 1, 2, … n, from all three places that emit them |
| CodexTurns.ActiveIsLastStarted | client/internal/agent/codex/appserver_client.go:495-707 | in every run the active turn of a thread is the one started last, unless a completion that names it or none has come since |
| CodexTurns.EndTellsTheError | client/internal/agent/codex/appserver_client.go:620-707 | in every run a turn's end, on the stream and on the timeline, bears the notification's own error or else the turn's last error that was not to be retried |
| CodexTurns.PendingIsLastAsked | client/internal/agent/codex/appserver_client.go:752-841 | in every run an approval is pending exactly if it was the last asked for under its identifier and has not been settled |
| CodexTurns.ApprovalsAreToldOf | client/internal/agent/codex/appserver_client.go:752-841 | asking and settling are told of under the thread, turn and item that was asked for |
| CodexTurns.NotificationsSpeak | client/internal/agent/codex/appserver_client.go:493-750 | what a notification makes the client say is of that notification's thread, item and request, of its kind, and of the turn it names or the one active |
| CodexTurns.NotificationsAreTold | client/internal/agent/codex/appserver_client.go:495-647 | starts, deltas and errors are told of unless there is nothing to tell, a delta with its own text |
| CodexTurns.ItemsAreTold | client/internal/agent/codex/appserver_client.go:865-881 | an item that is no message is told of with its progress |
| CodexTurns.KindsAreRemembered | client/internal/agent/codex/appserver_client.go:1028-1059 | a message's deltas are of the kind they tell, or else of its known one, which is remembered with the text streamed so far |
| CodexTurns.EndForgetsTheTurn | client/internal/agent/codex/appserver_client.go:648-707 | the end of a turn leaves none of its texts, numbers and errors, and all of the other turns' |
| TimelineNumbering.LiveNumbersDistinct | client/internal/agent/codex/appserver_client.go:1006-1011 | while a turn lives its timeline numbers are positive and pairwise distinct, and increase on the read loop, with answers to approvals interleaved |
| TimelineNumbering.NumbersDistinctIff | client/internal/agent/codex/appserver_client.go:1006-1011 | in every run, with any number of ends and restarts, a turn's numbers are pairwise distinct exactly if none is shown in two of its lives |
| TimelineNumbering.DistinctIffNothingIsLate | client/internal/agent/codex/appserver_client.go:686-697 | in every run that begins with the turn's start, provided no life hides its number 1, exactly if no number drawn after the counter was forgotten is shown |
| TimelineNumbering.LateNumberMayFillAGap | client/internal/agent/codex/appserver_client.go:586-593 | why that proviso: a run in which a number drawn late is shown and repeats none |
| TimelineNumbering.LateAnswerRepeats | client/internal/agent/codex/approvals.go:43-70 | the first number drawn for an answer after the end repeats number 1, whatever follows |
| TimelineNumbering.RestartedTurnRepeats | client/internal/agent/codex/appserver_client.go:495-513 | so does a turn identifier that is started again |
| TimelineNumbering.TerminalNumberIsLargest | client/internal/agent/codex/appserver_client.go:686-697 | when it is numbered the terminal event gets the largest number issued so far in the turn's life, shown or only drawn |
| TimelineNumbering.NumbersAscendIff | client/internal/agent/codex/appserver_client.go:1006-1011 | with drawing and showing as separate steps, in every run the numbers of a turn are shown in order exactly if no event of a life is overtaken, by the read loop or by an answer, between its drawing and its showing, and events of different lives ascend |
| TimelineNumbering.TimesArePositions | client/internal/agent/codex/appserver_client.go:852-863 | the times this is said with are positions in the run: the step that drew the event and the step that showed it |
| TimelineNumbering.LoopIsOvertaken | client/internal/agent/codex/approvals.go:55-68 | a run in which an answer is numbered and shown between the read loop's drawing and showing of an event |
| TimelineNumbering.NumbersRepeatAfterTheEnd | client/internal/agent/codex/approvals.go:55-70 | a run in which an approval answered after the end of its turn repeats a number |
| TimelineNumbering.StepsMakeUpHandlers | client/internal/agent/codex/appserver_client.go:648-707 | without interruption the finer steps are the client's handlers: a completion |
| TimelineNumbering.StepsMakeUpRequests | client/internal/agent/codex/appserver_client.go:752-841 | the same for a request for an approval |
| TimelineNumbering.StepsMakeUpAnswers | client/internal/agent/codex/approvals.go:34-73 | and for an answer |
| ActiveTurnRelay.HubFollows | gateway/internal/websocket/client_hub.go:332-356 | the hub's handler does to its active turns what the relay model says a frame does |
| ActiveTurnRelay.FramesFollowTheClient | client/cmd/client/main.go:750-816 | the frames of a notification do to the gateway's turn of a thread what the notification did to the client's |
| ActiveTurnRelay.ActiveTurnsAreBacked | client/internal/agent/codex/appserver_client.go:495-707 | in every run, with restarts of agents that have no turn active, once all frames under way have arrived, the gateway has a turn active only if the agent has that same turn active |
| ActiveTurnRelay.NamelessCompletionLeavesTheTurn | client/internal/agent/codex/timeline_mapper.go:92-96 | why completions have to carry the turn: otherwise the gateway keeps it |
| ActiveTurnRelay.RestartKeepsBackedIff | client/internal/agent/manager/supervisor.go:233-257 | after every such run, whatever is unsent, a restart keeps all the agent's threads backed exactly if for each turn active in the agent the frames of its start have been sent and, after them, an interrupt of it, the archiving of its thread or a restarted agent's end of it |
| ActiveTurnRelay.EndedSinceIff | gateway/internal/websocket/client_hub.go:1140-1169 | where the active turn is the last one started, whatever has ended it at the gateway since was sent by the command handler or the read loop of a restarted agent |
| ActiveTurnRelay.EndsTells | gateway/internal/websocket/client_hub.go:1140-1194 | the frames that end a turn at the gateway: its end, an end naming no turn, the archiving of its thread |
| ActiveTurnRelay.RestartWithATurnLeavesIt | client/internal/agent/manager/supervisor.go:233-257 | a run in which a restart with an active turn strands that turn at the gateway |
| ThreadRuntime.RuntimePreferences.UpdateThreadRuntimeSettings | client/internal/agent/codex/thread_runtime.go:41-89 | accepted exactly when every named value is allowed; refused updates change nothing |
| ThreadRuntime.RuntimePreferences.SeedThreadRuntimeState | client/internal/agent/codex/thread_runtime.go:91-105 | a report sets desired and applied alike, an empty one sets nothing |
| ThreadRuntime.RuntimePreferences.TurnStartRuntimeOverride | client/internal/agent/codex/thread_runtime.go:131-167 | an override carries all that is desired, and is sent only where desired and applied differ |
| ThreadRuntime.RuntimePreferences.StartTurn | client/internal/agent/codex/appserver_client.go:364-392 | applied becomes desired exactly when a start that sent an override succeeds |
| ThreadRuntime.RuntimePreferences.ForgetThread | client/internal/agent/codex/appserver_client.go:448-457 | archiving forgets both |
| ThreadRuntime.SpellingsAreNormal | client/internal/agent/codex/thread_runtime.go:331-396 | normalising a normal form changes nothing |
| ThreadRuntime.SandboxRoundTrip | client/internal/agent/codex/thread_runtime.go:375-409 | the mode an override carries reads back as the mode it was made from |
| ThreadRuntime.OverrideSuffices | client/internal/agent/codex/thread_runtime.go:131-167 | a server that takes an override holds everything desired, whatever it held before |
| ThreadRuntime.StartAppliesDesiredIff | client/internal/agent/codex/appserver_client.go:364-392 | after any run a successful start leaves the server with every non-empty desired preference exactly if it sends an override or what lost overrides left there does not disagree |
| ThreadRuntime.StartAppliesWhateverWasLostIff | client/internal/agent/codex/appserver_client.go:364-392 | over all choices of which failed starts reached the server: exactly if an override is sent or every override lost since client and server last agreed agrees with what is desired |
| ThreadRuntime.OtherwiseIsReachable | client/internal/agent/codex/appserver_client.go:380-385 | each of these choices is a world some run reaches, which the client cannot tell from its own |
| ThreadRuntime.SecondStartSendsNothing | client/internal/agent/codex/thread_runtime.go:131-167 | a second start with no update in between sends no override |
| ThreadRuntime.UpdateReachesServer | client/internal/agent/codex/thread_runtime.go:41-89 | an accepted update is on the server after the next successful start, unless that sends nothing although lost overrides left something else there |
| RuntimeUpdates.UpdateIsTakenIffOffered | client/internal/agent/codex/thread_runtime.go:41-89 | an update is taken exactly if every value it names is offered; it then changes what is desired of its thread as it says, and otherwise nothing |
| RuntimeUpdates.ReportIsBelieved | client/internal/agent/codex/thread_runtime.go:91-105 | a report that tells anything is what is desired and believed, so that nothing is sent |
| RuntimeUpdates.OwnSpellingsAreOffered | client/internal/agent/codex/thread_runtime.go:331-396 | the client's own spelling of an offered value is taken, whatever its padding |
| RuntimeUpdates.ArchivedIsForgotten | client/internal/agent/codex/appserver_client.go:448-457 | of an archived thread nothing is left, of the others everything |
| ThreadRuntime.LostAnswerMisleads | client/internal/agent/codex/appserver_client.go:380-385 | a run in which a successful start leaves the server without what is desired |
| Sorting.SortKeys | client/internal/agent/manager/supervisor.go:487-496 | the keys in ascending order, each once |
| Sorting.SortingIsUnique | client/internal/agent/manager/supervisor.go:487-496 | there is only one such order, so what follows from it is determined |
| Supervisor.Registry.Names | client/internal/agent/registry/registry.go:40-50 | the registered names, sorted |
| Supervisor.Supervisor.StartAgent | client/internal/agent/manager/supervisor.go:369-398 | a running agent is left alone; otherwise runtime, cleanup and status are set together or the failure is marked |
| Supervisor.Supervisor.StopAgent | client/internal/agent/manager/supervisor.go:400-412 | the agent leaves both maps and is stopped, also when its cleanup fails |
| Supervisor.Supervisor.StartAll | client/internal/agent/manager/supervisor.go:131-150 | all are started, or the first that cannot be is marked and all before it are stopped |
| Supervisor.Supervisor.StopAll | client/internal/agent/manager/supervisor.go:152-170 | stopped in order, up to and including the first whose cleanup fails |
| Supervisor.Supervisor.NextAgentID | client/internal/agent/manager/supervisor.go:465-472 | the search ends within one more try than there are records, with the first free candidate |
| Supervisor.CandidatesDistinct | client/internal/agent/manager/supervisor.go:465-472 | different numbers make different identifiers |
| Supervisor.Pigeonhole | client/internal/agent/manager/supervisor.go:465-472 | among one more candidate than there are records one is free |
| Supervisor.Supervisor.InstallAgent | client/internal/agent/manager/supervisor.go:172-206 | a free identifier is used, and what is reported matches what runs |
| Supervisor.Supervisor.DeleteAgent | client/internal/agent/manager/supervisor.go:208-231 | a deleted agent neither runs nor is recorded; a failed cleanup leaves its record |
| Supervisor.Supervisor.RestartAgent | client/internal/agent/manager/supervisor.go:233-257 | success means the agent runs |
| Supervisor.Supervisor.AgentInstances | client/internal/agent/manager/supervisor.go:335-345 | the recorded agents in order, each with its status |
| SupervisorLaws.FleetIsInStepInEveryRun | client/internal/agent/manager/supervisor.go:131-257 | registered runtimes, cleanups and agents with status running are the same set, within the records, over every run whatever fails |
| SupervisorLaws.FailedInstallRestores | client/internal/agent/manager/supervisor.go:172-206 | an installation leaves the fleet as it was exactly when it fails |
| SupervisorLaws.StartAllSucceedsIff | client/internal/agent/manager/supervisor.go:131-150 | it succeeds exactly when every agent runs or can be started; then all run, and those that ran keep their process |
| SupervisorLaws.StartAllFromRestIsAllOrNothing | client/internal/agent/manager/supervisor.go:131-150 | from a fleet at rest all agents run afterwards or none |
| SupervisorLaws.FailedStartAllLeaves | client/internal/agent/manager/supervisor.go:139-146 | after a failed StartAll exactly those run that ran before and sort after the agent that could not be started |
| SupervisorLaws.FailedStartAllSparesIff | client/internal/agent/manager/supervisor.go:139-146 | it spares what was running exactly when nothing running sorts before that agent |
| SupervisorLaws.StopAllStopsAllIff | client/internal/agent/manager/supervisor.go:152-170 | StopAll stops everything exactly when no cleanup but the last one's fails |
| SupervisorEffects.InstalledAgentIs | client/internal/agent/manager/supervisor.go:172-206 | an installation adds the agent with its record and the process that was started, or nothing, and touches no other |
| SupervisorEffects.DeletedAgentIs | client/internal/agent/manager/supervisor.go:208-231 | a deletion takes exactly this agent away whole, or only rests it if its cleanup fails |
| SupervisorEffects.RestartedAgentIs | client/internal/agent/manager/supervisor.go:233-257 | a restart ends exactly this agent's process and registers the new one; failures of cleanup and start show |
| SupervisorEffects.StartedAgentIs | client/internal/agent/manager/supervisor.go:131-150 | where every agent is able, each that does not run gets the process it was started with |
| SupervisorEffects.FailedStartLeaves | client/internal/agent/manager/supervisor.go:131-150 | where one is not, the agents before it rest, its failure shows, and those after it are as they were |
| SupervisorEffects.StoppedAgentIs | client/internal/agent/manager/supervisor.go:152-170 | each running agent rests up to the first whose cleanup fails, and those after it are as they were |
| SupervisorEffects.InstancesShowAgents | client/internal/agent/manager/supervisor.go:335-345 | each recorded agent is listed once, under its name and with its status |
| SupervisorLaws.ReportRuntimeStatus | client/cmd/client/main.go:1768-1774 | running exactly when some listed agent is |
| SupervisorLaws.ReportsRunningIffRegistered | client/cmd/client/main.go:1753-1776 | the machine snapshot says running exactly when some runtime is registered |
| TimelineTexts.MessageShowsTheLastSaid | console/src/features/threads/model/timeline-model.ts:42-85 | in every folded timeline a user's, a failure's or the system's message is there exactly if something was said under its identifier, and shows what was said last |
| TimelineTexts.AgentShowsItsPieces | console/src/features/threads/model/timeline-model.ts:87-165 | a turn's agent message is there exactly if an event makes one; its text is the display texts of its final message events, in order, from the last replacing one on, and its terminal output those of its terminal events |
| TimelineTexts.ProgressGoesOn | console/src/features/threads/model/timeline-model.ts:312-346 | after an event of the agent's progress the progress shows what the event says and keeps what was there, section by section under a snapshot |
| TimelineReplay.FoldKeepsOrder | console/src/features/threads/model/timeline-model.ts:42-121 | message identifiers stay pairwise distinct, with at most one agent message for a turn |
| TimelineReplay.EventKeepsToItsTurn | console/src/features/threads/model/timeline-model.ts:42-121 | an event changes its own turn's messages as if there were no others, and no others |
| TimelineReplay.FoldKeepsTurnsApart | console/src/features/threads/model/timeline-model.ts:42-121 | a turn's share of the fold is the fold of the turn's own events |
| TimelineReplay.SortIsStable | console/src/features/threads/hooks/use-thread-workspace.ts:115-119 | the sort is ascending, and keeps the events of each number in order |
| TimelineReplay.ReplayEqualsLive | console/src/features/threads/hooks/use-thread-workspace.ts:115-119 | replay shows, for every turn whose numbers do not decrease, exactly the messages of the live view |
| TimelineReplay.ReplayShowsTheSame | console/src/features/threads/hooks/use-thread-workspace.ts:115-119 | and no other messages of it |
| TimelineDelivery.InTurnReplaysAsLive | console/src/features/threads/hooks/use-thread-workspace.ts:115-119 | a turn none of whose events was overtaken, and whose lives ascend, replays exactly as it was shown live |
| ProgressText.MergePlainProgressSnapshot | console/src/features/threads/model/timeline-model.ts:353-385 | the loop over sections replaces the first section the snapshot goes on from |
| ProgressText.SectionHoldsNoMore | console/src/features/threads/model/timeline-model.ts:369-377 | a section never holds a snapshot that the whole text does not: that test is dead |
| ProgressText.MergeKeepsSections | console/src/features/threads/model/timeline-model.ts:353-385 | every section there was is in the merged text |
| ProgressText.MergeKeepsSnapshot | console/src/features/threads/model/timeline-model.ts:353-385 | and so is the trimmed snapshot |
| ProgressText.MergeAgainOnlyTrims | console/src/features/threads/model/timeline-model.ts:353-385 | merging a non-blank snapshot again changes nothing but trailing white space |
| ProgressText.SnapshotTakesItsPlace | console/src/features/threads/model/timeline-model.ts:353-385 | a snapshot that says something new takes the place of the text or section it goes on from, with what is around it untouched, or comes last in a section of its own |
| ProgressText.JoinSections | console/src/features/threads/model/timeline-model.ts:369-380 | joining the sections of a text gives the text |
| ProgressText.AppendProgressDeltaToSection | console/src/features/threads/model/timeline-model.ts:387-417 | the delta goes on in its label's section or opens a new one |
| ProgressText.DeltaGoesUnderItsLabel | console/src/features/threads/model/timeline-model.ts:387-417 | what was there stays in front, the delta is at the end, and between it and its label's header no other header stands |
| ProgressText.DeltaGoesOnIff | console/src/features/threads/model/timeline-model.ts:387-417 | a delta goes on where the text is exactly if its last section is the label's, and otherwise opens one |
| ProgressText.PlainDeltasConservedIff | console/src/features/threads/model/timeline-model.ts:348-351 | the stream of plain deltas comes out unchanged exactly when no text another delta follows ends in white space |
| ConsoleHub.ConsoleHub.Broadcast | gateway/internal/websocket/console_hub.go:106-132 | each client that is due the frame gets it or is dropped |
| ConsoleHub.ConsoleHub.WriteOne | gateway/internal/websocket/console_hub.go:134-150 | one frame moves from the queue to the console, or the client goes |
| ConsoleHub.DeliversWhatIsDue | gateway/internal/websocket/console_hub.go:171-245 | a console that follows a thread is delivered exactly the frames about it, kind by kind, and one that follows none every frame |
| ConsoleDelivery.ConsoleFollowsItsQuery | gateway/internal/websocket/console_hub.go:36-60 | in every run a console follows the thread its query names, trimmed |
| ConsoleDelivery.FollowersGetTheirThread | gateway/internal/websocket/console_hub.go:106-150 | however broadcasts overlap, all that a console that follows a thread was written or has queued is about that thread |
| ConsoleDelivery.NothingIsLost | gateway/internal/websocket/console_hub.go:106-150 | however broadcasts overlap, what a console was written, is being written and has queued are frames of distinct broadcasts that concern it; while it is registered every such broadcast was taken, is still to come, or is about to drop it; and no queue holds more than 32 |
| ConsoleDelivery.GaplessIff | gateway/internal/websocket/console_hub.go:112-129 | in every run what a console took is a prefix of what it was due exactly if no frame was taken while an earlier broadcast had yet to come to it or after an earlier one found its queue full |
| ConsoleDelivery.DeliveryHasNoGaps | gateway/internal/websocket/console_hub.go:106-150 | in runs whose broadcasts do not overlap, written, being written and queued are together every broadcast since the console joined that concerns its thread |
| ConsoleDelivery.EveryFrameDueArrives | gateway/internal/websocket/console_hub.go:106-150 | each frame about a console's thread, or each frame at all, that was broadcast since it joined is among them |
| ConsoleDelivery.RemovedConsoleSawAPrefix | gateway/internal/websocket/console_hub.go:124-178 | in such runs a removed console was written a prefix of that |
| ConsoleDelivery.ConsolesMayDisagree | gateway/internal/websocket/console_hub.go:112-129 | two overlapping broadcasts that reach two consoles in different orders |
| ConsoleDelivery.DroppedConsoleMayHaveAGap | gateway/internal/websocket/console_hub.go:124-128 | a run in which a broadcast finds a queue full, and another gets its frame in before the console is dropped |
| ConsoleDelivery.UninterruptedIsBroadcast | gateway/internal/websocket/console_hub.go:106-132 | a broadcast that nothing comes between does what the hub's own method does |
| ConsoleHub.OnlyTheSlowAreDropped | gateway/internal/websocket/console_hub.go:124-128 | a broadcast drops a console exactly when it is due the frame and its queue is full; a console that is due the frame and stays gets it behind all it was given |

## Left out

- WebSocket, HTTP and process plumbing, heartbeats, backoff, CORS and API keys: sockets are queues, and a send or write may fail at any step.
- JSON and TOML: notifications, requests and envelopes arrive typed; a payload that cannot be decoded is a case of its own or an event without effect.
- What the hub broadcasts to consoles while it handles an event: the console hub is modelled by itself.
- Interleaving inside one hub handler: the agreement lemmas take a handler as one step; only the command protocol, the correlator, the numbering and the relay are split further.
- HTTP handlers that edit the index directly (gateway/internal/api/server.go:1316, 1497, 1560, 1619 and 1715) are no steps of the runs in `HubAgreement`; `IndexEdits` says what one of them does to the next store.
- The hub's active turns are not cleared when a machine disconnects, so the relay lemma is about one session.
- Aliasing of agent slices between registry copies, and nil stores.
- Timestamps beyond seconds, as the code compares and prints no more; how a text is parsed to one.
- Letters outside ASCII: lower-casing of policy names treats ASCII only, and whether an agent identifier is valid is a parameter of deleting and restarting.
- Names that the client makes up for items and events without an identifier, and the payloads it passes on unread.
- Display defaults of runtime settings and the list of models, config files, environment details, and everything in the file system: saving and removing may fail, and that is all.
- File changes of a console message, which the timeline never touches.
- What else goes out on a connection while a command is handled: heartbeats, and events of runtimes other than the one an answer to an approval shows.
- What a refresh asks of runtimes other than the read loop's own; two read loops may wait for each other in the same way.
- CommandProtocol.AnsweredOnce: does not say that a client goes on reading; a connection may end with commands unread.
- ActiveTurnRelay.ActiveTurnsAreBacked: does not say that a turn active in the client is active at the gateway, since an interrupt clears it there first.
