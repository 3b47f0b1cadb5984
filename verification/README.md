# A verified model of Ape-Server's delivery protocols

Ape-Server is an instant-messaging server. Two of its parts promise that no message is lost:
the offline synchronisation a gateway session runs after login, and the consumption of Kafka
partitions. This project models both as state machines in which each stretch of code between
two awaits is one atomic step, together with the smaller stateful pieces beside them, and proves
what they promise over every run. Objects whose fields the code updates in place are also
written as classes, each method proved to take the object's value where the state machine's
function says.

| file | what it models |
|---|---|
| `Options.dfy` | the Option datatype |
| `Messages.dfy` | the message envelope and its recipient check |
| `OfflineScan.dfy` | the paging loop of `scanOfflineMessages`, alone, against any environment |
| `Session.dfy` | the state of one `WSSession`: pending map, ACK timer, write queue, disconnect |
| `SyncProtocol.dfy` | one session's coroutines interleaved with the message store |
| `SyncProofs.dfy` | the invariant of that protocol, step by step |
| `SyncTheorems.dfy` | theorems over whole runs and over any sequence of sessions |
| `SyncEffects.dfy` | what each event does to frames, connection, pending map and receipts, and what follows over runs |
| `SyncProgress.dfy` | when a scan can still complete, and that any store of the account's messages can |
| `KafkaGroup.dfy` | one partition seen by a consumer group: log, lanes, workers, commits |
| `KafkaProofs.dfy` | at-least-once and causal order |
| `KafkaHistory.dfy` | handled, sent and accepted offsets told from events, and when a worker leaves its job |
| `KafkaProgress.dfy` | a running owner can always get any unhandled message handled and committed |
| `KafkaLoss.dfy` | the one rebalance branch that loses messages, and exactly when |
| `Backpressure.dfy` | the consumer object, its 128/64 pause and resume calls, one lane over a run |
| `Registry.dfy` | the session registry and its metric |
| `Producer.dfy` | confirmed delivery and its callback cell |
| `Migration.dfy` | the conversation migration script |
| `Utf8.dfy` | preview truncation in the migration and in the server |
| `IocPool.dfy` | the least-loaded dispatcher |

## Contracts of what is not shown

- Fetch: a page holds the lowest candidates above the cursor at some moment of the call, ascending;
  a recipient's sequence numbers are unique (they are Snowflake ids). `TieAcrossPagesIsSkipped`
  says what happens without uniqueness.
- Gate: `WithFriendMessage` runs its action at most once and only for a message that, when it
  looks, is not blocked, not cancelled and has no receipt; it may also throw before, or fail to
  commit after, the action.
- ACK: following `QueueMessageAck`, a normal return of `AckMsg` means a receipt is stored, or the
  message is cancelled, or it is no longer a candidate; an exception means either.
  Receipts are never deleted.
- Broker: within one assignment a partition's offsets arrive ascending without gaps in the log,
  from the log start or some value once committed; commits may be delayed, lost or reordered;
  assigning and revoking clear pauses; a paused partition delivers nothing; each accepted
  produce is reported once.
- The handler and the worker pool are set before `start`.

## Findings

- `rebalance_cb` moves the generation for every error code but assigns or revokes only for two.
  For any other code queued jobs become stale while the fetch position stays, and later commits
  pass over them. `OtherErrorSafeIff` gives the exact condition under which no message is lost,
  `LossIsReachable` a run that loses one.
- The same branch leaves the client's pause in place while the lane's flag is cleared by the
  next update, so the flag is not always the client's pause state. Over whole runs
  `FlagIsRightIff` says exactly when it is: every update that comes after such a callback found
  the partition paused must find 128 jobs queued and have its pause call answered, until an
  assignment or revocation. `StrandIsReachable` is a run from the start that ends with the
  partition paused for good.
- The registry does not always map an account to its newest live session: after a newer session
  unregisters, an older one still connected stays unmapped (`FindsNewestLiveIff`).
- Two messages with one sequence number across a page boundary: the second is skipped silently
  (`ScanIsWholeListIff`).
- The header's comment on `pendingOfflineMsgs_` (include/gateway/ws_session.h:97) speaks of a
  `last_seq` kept per conversation, and docs/gateway_issues.md of a channel replacing the ACK poll;
  the code does neither: it keeps receipts and waits on a timer. The model follows the code.

## Model

| member | source | states |
|---|---|---|
| OfflineScan.FetchIsLowest | src/storage/mongohandler.cpp:134-182 | on a store in sequence order a page is its lowest candidates above the cursor, without gaps, to the end of the store if shorter than 50 |
| OfflineScan.ScanAscends | src/gateway/ws_session.cpp:808-831 | whatever the store holds, only well-addressed, strictly ascending messages are delivered |
| OfflineScan.ValidRunIsLongest | src/gateway/ws_session.cpp:818-824 | the prefixes of a page that pass the recipient and order checks are exactly those up to the accepted run |
| OfflineScan.ScanStopsAtFirstBad | src/gateway/ws_session.cpp:811-831 | on an ascending store of positive numbers the scan succeeds with everything, or fails having delivered the candidates before the first that is not the account's |
| OfflineScan.ScanIsWholeListIff | src/gateway/ws_session.cpp:805-832 | the scan ends normally having delivered the whole stored list, once each and in order, iff the list is well addressed, positive and free of ties |
| OfflineScan.TieAcrossPagesIsSkipped | src/gateway/ws_session.cpp:817-830 | a full page followed by a tie with its last message ends normally without delivering the tie |
| OfflineScan.DeliverPage | src/gateway/ws_session.cpp:818-825 | which of the four endings a page has, told from what `deliver` answered and whether the session was connected at each await |
| OfflineScan.ScanOfflineMessages | src/gateway/ws_session.cpp:805-832 | the loop terminates against any environment; every `deliver` call but a failing last one succeeded; the scan fails iff a call threw or the last fetch was bad, and ends normally only when connected with an empty fetch above everything delivered; on a fixed store it follows the reference scan |
| Session.DisconnectKeeps | src/gateway/ws_session.cpp:906-922 | disconnecting is idempotent, empties pending, unregisters once and keeps the write order |
| Session.QueuedWriteKeeps | src/gateway/ws_session.cpp:773-782 | a frame is accepted in order or the session is closed, never silently dropped |
| Session.DrainKeeps | src/gateway/ws_session.cpp:751-771 | beginning and ending a write keep accepted = written + held + queued and one write at a time |
| Session.AcknowledgeAllMeans | src/gateway/ws_session.cpp:897-902 | acknowledging removes exactly the ids from pending and cancels the timer exactly when pending becomes empty |
| Session.WSSession.constructor | include/gateway/ws_session.h:52-109 | a new session's state |
| Session.WSSession.Disconnect | src/gateway/ws_session.cpp:906-922 | the object's state after onDisconnect |
| Session.WSSession.TrySend | src/gateway/ws_session.cpp:731-733 | the bounded channel: hand over, buffer up to 256, or refuse |
| Session.WSSession.Send | src/gateway/ws_session.cpp:773-782 | queuedWrite: accepted iff there is room, otherwise disconnected |
| Session.WSSession.Post | src/gateway/ws_session.cpp:714-726 | asyncSend's handler: accept, ignore when closed, or ask for a disconnect |
| Session.WSSession.NextFrame | src/gateway/ws_session.cpp:755-759 | the drain takes the oldest frame, waits, or stops |
| Session.WSSession.BeginWrite | src/gateway/ws_session.cpp:761-763 | a write begins for the held frame |
| Session.WSSession.EndWrite | src/gateway/ws_session.cpp:762-769 | after a write the drain goes on, or closes the session on error |
| Session.WSSession.DeliverOffline | src/gateway/ws_session.cpp:840-848 | a closed session refuses and is unchanged; otherwise the message is pending before its frame is enqueued, and a full queue leaves nothing pending |
| Session.WSSession.BeginBatchWait | src/gateway/ws_session.cpp:855-859 | parks only when connected with something pending |
| Session.WSSession.EndBatchWait | src/gateway/ws_session.cpp:861-866 | however the wait ends, the session is closed or nothing is pending |
| Session.WSSession.HandleAck | src/gateway/ws_session.cpp:869-904 | exactly the ids before the first twice-refused one are acknowledged, and the socket is closed iff there is one |
| SyncProofs.StepKeeps | src/gateway/ws_session.cpp:784-922 | every step of every coroutine and of the world keeps the protocol invariant (what each step does to the outside is `SyncEffects.EffectsAreExact`) |
| SyncProofs.CoverAdvances | src/gateway/ws_session.cpp:818-824 | passing a page's message extends the settled-or-pending range to its number |
| SyncProofs.RegisterCovers | src/gateway/ws_session.cpp:845-848 | registering the message covers it and disturbs nothing else |
| SyncProofs.RegisterAndSendRegisters | src/gateway/ws_session.cpp:845-848 | after registering and enqueuing, the message is pending, or the session is closed with nothing pending |
| SyncProofs.CompleteKeeps | src/gateway/ws_session.cpp:795-801 | when an empty page lets the scan complete, every stable candidate is settled |
| SyncTheorems.Reachable | src/gateway/ws_session.cpp:178-922 | every reachable state satisfies the protocol invariant |
| SyncTheorems.NoLostWakeUp | src/gateway/ws_session.cpp:855-867 | a waiter's timer is armed exactly while something is pending, and then the session is connected; the next fetch starts with nothing pending; never more than 50 pending |
| SyncTheorems.OffersAreAddressed | src/gateway/ws_session.cpp:820-824 | only messages of the account, above the cursor, reach the delivery action |
| SyncTheorems.AcknowledgedIsNotReoffered | src/storage/mysqlhandler.cpp:970-975 | once a receipt exists, no later gate decision of the run admits that message |
| SyncTheorems.WritesAreSerialised | src/gateway/ws_session.cpp:728-771 | at most one write in flight; accepted frames are, in order, those written, the one held and those queued, at most 256 |
| SyncTheorems.DisconnectIsFinal | src/gateway/ws_session.cpp:906-922 | after a disconnect nothing is accepted or pending again and unregistration happened exactly once |
| SyncTheorems.AtMostOneVerdict | src/gateway/ws_session.cpp:332-349 | at most one sync verdict frame, never both success and SYNC_ERROR |
| SyncTheorems.ScanStartStep | src/gateway/ws_session.cpp:809-811 | every session's scan starts at cursor 0 |
| SyncTheorems.DeliverableIsStable | src/gateway/ws_session.cpp:805-832 | the history variables record what was in the store throughout |
| SyncTheorems.CompletedSyncIsSound | src/gateway/ws_session.cpp:784-904 | once success is enqueued, every candidate deliverable throughout the scan has a receipt, in every interleaving |
| SyncTheorems.CursorNeverSkips | src/gateway/ws_session.cpp:809-831 | the cursor never passes a deliverable message without a receipt, whatever higher numbers were acknowledged |
| SyncTheorems.RunContinues | src/gateway/ws_session.cpp:714-922 | over any run logs only grow, a disconnect is never undone, and receipts are never lost |
| SyncTheorems.RecoveryNeverSkips | src/gateway/ws_session.cpp:809-853 | over any number of successive or overlapping sessions, a completed or passed message is receipted in all of them from that instant on |
| SyncEffects.EffectsAreExact | src/gateway/ws_session.cpp:714-922 | at every step of every run: exactly the frame the event calls for is enqueued, if connected with room; the session closes exactly for a disconnect, a write error, an expired wait or a refused frame; a message is pending from its delivery to its acknowledgement or the session's end |
| SyncEffects.PendingWasSent | src/gateway/ws_session.cpp:845-848 | over any run, a message waiting for its acknowledgement has had its frame enqueued |
| SyncEffects.GateStepIsExact | src/storage/mysqlhandler.cpp:940-990 | the gate admits a message iff it does not fail and the message is not blocked, not cancelled and without a receipt |
| SyncEffects.OfflineWasLetThrough | src/gateway/ws_session.cpp:834-852 | every message frame in the log goes back to a gate that looked when the message was in place, not blocked, not cancelled and without a receipt |
| SyncEffects.FailureIsFinal | src/gateway/ws_session.cpp:332-349 | after a failed fetch, a failed gate or commit, or a message out of place, the scan is over for good, never reports success, and while connected has enqueued SYNC_ERROR unless the exception had no text |
| SyncEffects.ScanStopsWhenClosed | src/gateway/ws_session.cpp:812-828 | once the session is closed its scan fetches no further page, takes up no further message and waits no more |
| SyncEffects.FetchMoves | src/gateway/ws_session.cpp:813-819 | a good fetch takes the scan to its page's first message, an empty one to its end |
| SyncEffects.GateMoves | src/gateway/ws_session.cpp:818-830 | a passed gate takes it to the page's next message, or past the page: waiting if something is pending, else to the cursor of the page's last number |
| SyncEffects.WaitMoves | src/gateway/ws_session.cpp:826-830 | a wait that ends with nothing pending moves the cursor to the page's last number, any other ends the scan |
| SyncEffects.EachIsOfferedOnce | src/gateway/ws_session.cpp:811-831 | over any run, of two gate decisions the later is about a strictly higher number, so no message is offered twice in a session |
| SyncEffects.ReceiptsAreExact | src/gateway/ws_session.cpp:875-895 | a receipt is stored exactly when the call stored one, and the socket closes exactly on a second refusal |
| SyncEffects.AcksAreServed | src/gateway/ws_session.cpp:873-903 | when the coroutine is done with a list of ids, all were persisted, or those before one that was refused twice, and then the socket is closed |
| SyncProgress.CompletesIff | src/gateway/ws_session.cpp:784-904 | at any connected moment of a scan with the socket open, some continuation over that store enqueues the completion frame iff no failure is in hand and the rest of the page and all candidates above it are addressed to the account |
| SyncProgress.Completes | src/gateway/ws_session.cpp:784-904 | from any such moment with nothing in the way, steps in which nothing fails reach the completion frame, whatever is queued, pending or being acknowledged |
| SyncProgress.HopelessThroughout | src/gateway/ws_session.cpp:820-824 | once a failure is in hand or a misaddressed candidate ahead, no continuation over that store completes |
| SyncProgress.EveryStoreCompletes | src/gateway/ws_session.cpp:784-904 | for every store of candidates addressed to the account, some run from a fresh session completes with a receipt for each one the gate does not refuse |
| SyncProgress.AllIsWritten | src/gateway/ws_session.cpp:751-771 | while the session is connected the drain can write every accepted frame, in order, and then waits |
| KafkaProofs.RebalancingKeeps | src/messagequeue/kafkaconsumer.cpp:43-55 | a harmless rebalance keeps the lane invariant, all queued jobs becoming stale |
| KafkaProofs.ResumeIsSafe | src/messagequeue/kafkaconsumer.cpp:136-143 | no unhandled message lies below any position consumption restarts from |
| KafkaProofs.PushKeeps | src/messagequeue/kafkaconsumer.cpp:173-183 | a pushed job is the next outstanding offset of its generation |
| KafkaProofs.HeadIsNext | src/messagequeue/kafkaconsumer.cpp:235-250 | a current job in the worker's hand has everything below it handled |
| KafkaProofs.RecheckKeeps | src/messagequeue/kafkaconsumer.cpp:247-252 | both generation checks keep the lane invariant whether they proceed or drop the job |
| KafkaProofs.CommittedKeeps | src/messagequeue/kafkaconsumer.cpp:253-267 | after the commit call, accepted or refused, the lane invariant holds |
| KafkaProofs.StepKeeps | src/messagequeue/kafkaconsumer.cpp:43-269 | every step of every member keeps the group invariant |
| KafkaProofs.AtLeastOnce | src/messagequeue/kafkaconsumer.cpp:230-269 | every value ever sent or landed is at most the first unhandled offset, over every run |
| KafkaProofs.CausalOrder | src/messagequeue/kafkaconsumer.cpp:173-268 | the handler runs on an offset only after all lower ones were handled; the lower ones its generation received are exactly those whose commits were accepted |
| KafkaProofs.CommitAdvances | src/messagequeue/kafkaconsumer.cpp:253-259 | once a message's value was passed to commitAsync it stays handled, and when a member is later assigned the partition from that value on, nothing it receives in that generation is that message or a lower one |
| KafkaProofs.OrdinaryRebalancesAreHarmless | src/messagequeue/kafkaconsumer.cpp:50-54 | runs with only assignments and revocations meet the theorems' condition |
| KafkaHistory.HandledIsTrue | src/messagequeue/kafkaconsumer.cpp:250 | an offset counts as handled iff at some event of the run the handler returned successfully on its job |
| KafkaHistory.SentIsTrue | src/messagequeue/kafkaconsumer.cpp:253-256 | a value counts as sent iff commitAsync was called for the message just below it |
| KafkaHistory.DoneIsTrue | src/messagequeue/kafkaconsumer.cpp:256-263 | a generation's finished offsets are exactly, in order, those of its accepted commit calls on current jobs |
| KafkaHistory.DeliveredIsTrue | src/messagequeue/kafkaconsumer.cpp:173-183 | a generation's received offsets are exactly, in order, those delivered since its rebalance |
| KafkaHistory.HandledBeforeCommitted | src/messagequeue/kafkaconsumer.cpp:247-263 | at least once, told from events: below any value passed to commitAsync the handler has returned successfully on every offset |
| KafkaHistory.ReceivedInOrder | src/messagequeue/kafkaconsumer.cpp:173-268 | causal order, told from events: a generation's messages are those with accepted commits, then the one at the handler, then higher ones; all lower offsets were handled |
| KafkaHistory.RefusedIsRetried | src/messagequeue/kafkaconsumer.cpp:256-267 | a refused commit or a failing handler puts the same job back for another attempt after the wait, and nothing is done |
| KafkaHistory.JobIsKept | src/messagequeue/kafkaconsumer.cpp:247-267 | through any number of failures a worker stays with its current job, until an accepted commit, a rebalance or a shutdown |
| KafkaHistory.NothingNewIsBegun | src/messagequeue/kafkaconsumer.cpp:247-252 | with a stale job or after shutdown, at most the call under way completes before another job is taken |
| KafkaHistory.ShutdownStops | src/messagequeue/kafkaconsumer.cpp:225-252 | after shutdown a member completes at most one handler or commit call |
| KafkaHistory.RebalanceStops | src/messagequeue/kafkaconsumer.cpp:43-54 | after any rebalance, at most the call under way completes before another job is taken |
| KafkaProgress.CanProgress | src/messagequeue/kafkaconsumer.cpp:230-269 | from any state, a running member that owns the partition can go on to handle any unhandled message and have its commit accepted |
| KafkaProgress.HandFinishes | src/messagequeue/kafkaconsumer.cpp:246-267 | from wherever a worker stands with a current job, a succeeding handler and an accepted commit finish exactly that job |
| KafkaProgress.StaleIsDropped | src/messagequeue/kafkaconsumer.cpp:246-267 | from wherever a worker stands with a stale job, it can drop it without handling or finishing anything |
| KafkaLoss.HarmfulLoses | src/messagequeue/kafkaconsumer.cpp:43-55 | from any state with an unhandled fetched message, another error code leads to a commit past it |
| KafkaLoss.OtherErrorSafeIff | src/messagequeue/kafkaconsumer.cpp:43-55 | such a callback is safe for all continuations iff the member is unassigned or all below its position is handled |
| KafkaLoss.LossIsReachable | src/messagequeue/kafkaconsumer.cpp:43-55 | a run from the start that commits past a lost message |
| Backpressure.KafkaConsumer.constructor | include/messagequeue/kafkaconsumer.h:75-86 | an empty, coherent consumer |
| Backpressure.KafkaConsumer.RebalanceCb | src/messagequeue/kafkaconsumer.cpp:43-55 | the object after the callback; flags stay coherent iff it assigns, revokes or nothing was paused |
| Backpressure.KafkaConsumer.ConsumeMsg | src/messagequeue/kafkaconsumer.cpp:173-183 | the job joins the end of its partition's lane, created if absent |
| Backpressure.KafkaConsumer.TakeJob | src/messagequeue/kafkaconsumer.cpp:234-241 | the worker takes the oldest job |
| Backpressure.UpdateFollowsLaw | src/messagequeue/kafkaconsumer.cpp:284-290 | an answered update leaves a lane paused iff it holds 128 jobs, or more than 64 and was paused in this generation; an unanswered one changes nothing |
| Backpressure.KafkaConsumer.Turn | src/messagequeue/kafkaconsumer.cpp:274-290 | one lane's flag and the client's pause state follow that law; no other lane and no job is touched |
| Backpressure.KafkaConsumer.UpdateBackpressure | src/messagequeue/kafkaconsumer.cpp:271-292 | for every assigned lane: held with 128 jobs, released with at most 64, unchanged between, where the client answers; and the flag is the client's pause state |
| Backpressure.LaneIsBounded | src/messagequeue/kafkaconsumer.cpp:209-214 | at most 128 jobs plus one per poll with a rebalance plus one per refused pause, counted from the events |
| Backpressure.ResumesArePaidFor | src/messagequeue/kafkaconsumer.cpp:284-290 | 64 times the resumes is at most the jobs taken, counted from the events |
| Backpressure.CountsAreTrue | src/messagequeue/kafkaconsumer.cpp:209-214 | pops, resumes, refused pauses, rebalanced polls and the assignment are what the events of the run say |
| Backpressure.LaneIsFifo | src/messagequeue/kafkaconsumer.cpp:182-241 | over any run the jobs in the lane and fetched are, in order, those taken and those left |
| Backpressure.PausedIsResumed | src/messagequeue/kafkaconsumer.cpp:284-290 | from any agreed pause, the worker taking jobs and one answered update leave the partition fetched again |
| Backpressure.FullIsPaused | src/messagequeue/kafkaconsumer.cpp:284-286 | an answered update of a full lane pauses it |
| Backpressure.UpdateExactIff | src/messagequeue/kafkaconsumer.cpp:274-290 | after an update the flag is the client's pause state iff, refreshed, it was before, or 128 jobs are queued and the repeated pause is answered |
| Backpressure.FlagIsRightIff | src/messagequeue/kafkaconsumer.cpp:271-292 | over any run, the flag is right after every update iff every update that finds the partition orphaned in its pause by another error code also finds 128 jobs and a client that answers |
| Backpressure.FlagIsRight | src/messagequeue/kafkaconsumer.cpp:271-292 | over any run whose other-error callbacks never find the partition paused, the flag equals the client's pause state after each update |
| Backpressure.StuckStays | src/messagequeue/kafkaconsumer.cpp:277-290 | once they disagree so, the partition stays paused until another rebalance |
| Backpressure.OddCallbackStrands | src/messagequeue/kafkaconsumer.cpp:43-55 | that callback on a paused partition with under 128 jobs leads to the stuck state |
| Backpressure.StrandIsReachable | src/messagequeue/kafkaconsumer.cpp:43-55 | a run from the start, through 128 fetched messages and a pause, that ends stuck with the flag wrong after an update |
| Registry.MapsToLastRegistered | src/gateway/ws_session_manager.cpp:19-48 | an account maps to its last registered session iff that has not unregistered since, else to none |
| Registry.FindsNewestLiveIff | src/gateway/ws_session_manager.cpp:19-48 | the newest live session is found iff none is live or it registered last |
| Registry.OlderSessionIsStranded | src/gateway/ws_session_manager.cpp:34-48 | a three-operation history leaves a live session unmapped |
| Registry.MetricBalances | src/gateway/ws_session_manager.cpp:21-43 | in every interleaving the metric is the updates done, and with those outstanding it is the number of accounts the operations left registered |
| Registry.WSSessionManager.constructor | include/gateway/ws_session_manager.h:35-41 | an empty registry |
| Registry.WSSessionManager.RegisterSession | src/gateway/ws_session_manager.cpp:19-31 | the registry follows its history; the metric grows iff the account was absent |
| Registry.WSSessionManager.UnregisterSession | src/gateway/ws_session_manager.cpp:34-48 | only the active session is removed; a stale one changes nothing |
| Registry.WSSessionManager.PushTarget | src/gateway/ws_session_manager.cpp:52-66 | pushes go to the last registered session if it is still live, else nowhere |
| Producer.EveryStepIsSafe | src/messagequeue/kafkaproducer.cpp:18-22 | no report or waiter ever touches a freed cell or state |
| Producer.CallIsTrue | src/messagequeue/kafkaproducer.cpp:163-185 | a call's existence, acceptance, report and end are what the events of the run say |
| Producer.ResultIsTrue | src/messagequeue/kafkaproducer.cpp:18-22 | a call gave true iff a success of its own was reported and it returned after that |
| Producer.ConfirmedMeansOwnSuccess | src/messagequeue/kafkaproducer.cpp:163-185 | from the start: true iff the call's own success was reported before it returned; the cell is released once, on refusal or report, however late |
| Producer.AwaitReport | src/messagequeue/kafkaproducer.cpp:173-185 | the wait takes at most 240 turns, gives true iff one of its status loads, two a turn and a last one, saw a success, and gives up only on a failure or after 12 seconds |
| Migration.LatestIsMaximal | scripts/migrate_conversations.py:80-84 | the latest message is the qualifying one of greatest seq |
| Migration.SelectedRows | scripts/migrate_conversations.py:98-102 | the inserted rows are exactly the qualifying seqs |
| Migration.ShowIsNumeral | scripts/migrate_conversations.py:63 | a number is written as its decimal numeral, without leading zeros, and no other text is |
| Migration.PairIdNames | scripts/migrate_conversations.py:63 | the canonical id is the smaller account's numeral, an underscore and the larger account's, and nothing else is |
| Migration.PairIdIdentifies | scripts/migrate_conversations.py:60-63 | a canonical conversation id names exactly one unordered pair of accounts |
| Migration.ImportsExactly | scripts/migrate_conversations.py:63-96 | a record is imported iff its id names its two different accounts, they are friends both ways, and its conversation is not there yet |
| Migration.ImportedRow | scripts/migrate_conversations.py:79-92 | the imported row's floor, maximum, latest message, clamped read position and copied fields |
| Migration.ImportedUnread | scripts/migrate_conversations.py:79-119 | a fresh conversation's unread set, bounds, count, and that nothing else changes |
| Migration.FoldConserves | scripts/migrate_conversations.py:59-120 | imported + skipped is the number of records, each import is one new row, existing rows survive |
| Migration.EveryPairIsThere | scripts/migrate_conversations.py:59-120 | after a run every friends' pair among the records has its conversation |
| Migration.NewRowsArePairs | scripts/migrate_conversations.py:59-120 | every row a run adds belongs to two different accounts, friends both ways, that its id names |
| Migration.RerunImportsNothing | scripts/migrate_conversations.py:86-96 | a second run over the records imports nothing and changes nothing |
| Migration.RerunAfterInterruption | scripts/migrate_conversations.py:58-124 | rerunning after an interruption anywhere ends where one whole run would |
| Migration.Importer.constructor | scripts/migrate_conversations.py:42-49 | counters at zero over the opened tables |
| Migration.Importer.Flush | scripts/migrate_conversations.py:106-108 | a batch insert adds its rows to the open transaction |
| Migration.Importer.InsertUnread | scripts/migrate_conversations.py:97-113 | exactly all the rows are inserted, in one statement per 500 or part of 500 |
| Migration.Importer.InsertConversation | scripts/migrate_conversations.py:86-118 | the open transaction ends as the tables with that one conversation imported |
| Migration.Importer.Commit | scripts/migrate_conversations.py:119 | a commit that raises may have taken effect or not; one that returns has |
| Migration.Importer.ImportRecord | scripts/migrate_conversations.py:59-120 | an exception at any statement ends the record; it is imported whole, or skipped, or left uncommitted by an exception, or committed whole but uncounted when the commit's acknowledgement is lost |
| Migration.Importer.Migrate | scripts/migrate_conversations.py:58-124 | an exception anywhere leaves the records before it, whole and counted, and at most the one whose commit was not acknowledged, whole; a rerun from there ends as one whole run |
| Utf8.DecodesBack | scripts/migrate_conversations.py:22 | an encoded character decodes back |
| Utf8.CutCharacterVanishes | scripts/migrate_conversations.py:22 | a character cut short decodes to nothing |
| Utf8.FitIsLongest | scripts/migrate_conversations.py:22 | the prefixes that fit are exactly those up to the chosen one |
| Utf8.CutDecodesToFit | scripts/migrate_conversations.py:22 | cutting at any byte and ignoring errors gives the longest prefix that fits |
| Utf8.EncodeText | scripts/migrate_conversations.py:22 | encoding raises iff the text holds a surrogate |
| Utf8.SummaryIsLongestPrefix | scripts/migrate_conversations.py:22 | the text kept is the longest prefix whose encoding fits in 512 bytes |
| Utf8.BoundaryAtFit | src/storage/mysqlhandler.cpp:1009-1012 | the nearest character boundary at or below the limit is the end of that prefix |
| Utf8.BoundaryIsFit | src/storage/mysqlhandler.cpp:1009-1012 | in the bytes of a text, the last character boundary within the limit is the end of the longest fitting prefix |
| Utf8.PreviewsAgree | src/storage/mysqlhandler.cpp:1009-1013 | read back, the server's cut and the migration's are the same text |
| Utf8.PreviewBytes | src/storage/mysqlhandler.cpp:1009-1013 | any bytes are kept whole if short and up to the last character boundary within 512 otherwise; on the bytes of a text that is the very prefix the migration keeps |
| IocPool.Pool.constructor | include/util/ioc_pool.h:20-26 | all loads start at zero |
| IocPool.Pool.Scan | include/util/ioc_pool.h:56-64 | with tasks finishing between its reads, the scan finds the first least of the loads it read |
| IocPool.Pool.Spawn | include/util/ioc_pool.h:53-77 | the first least-loaded worker the scan saw is selected, only its load grows, and it ends at most one above the least load at the start |
| IocPool.Pool.Finish | include/util/ioc_pool.h:73-76 | a completion takes one from its worker |
| IocPool.LoadIsConserved | include/util/ioc_pool.h:69-76 | loads sum to spawned minus finished, whichever workers racing scans select |
| IocPool.SpreadNeverGrows | include/util/ioc_pool.h:53-77 | spawns alone never widen the spread beyond the larger of one and its start |
| IocPool.SpawnsLevel | include/util/ioc_pool.h:53-77 | as many spawns as the total shortfall bring the spread to at most one |

## Left out

- Session.WSSession.HandleAck: the method runs its awaits back to back; interleaving at each await is the business of the ACK steps in `SyncProtocol`.
- OfflineScan.ScanOfflineMessages: alone it sees disconnects and failures but no acknowledgements; those are in `SyncProtocol`.
- Backpressure.KafkaConsumer.TakeJob: the worker's coroutine around it is in `KafkaGroup`, on values, because members of a group interleave.
- A committed offset outrun by log retention: unhandled messages the broker deletes are not modelled.
- The Redis online flag, which is written after an await that follows the registry change.
- Authentication, registration, heartbeat and request forwarding in `handleReg`, `handleAuth` and `doReadLoop`, beyond which frames they write and when.
- The contents of frames, TLS, sockets, the closing WebSocket handshake, real clocks and logging.
- SQL, MongoDB, Redis and gRPC themselves: their answers are parameters or nondeterministic steps.
- The outbox worker and friend commands of `mysqlhandler.cpp`: only the receipt, cancellation and preview code is used.
- JSON in the two previews: unwrapping the content before the cut and rendering the summary after it; a migrated row keeps the message it is made from.
- `partitioner_cb`, a hash and a remainder: an easy member.
- `BaseServiceServer`, OpenTelemetry and the generated protobuf code.
