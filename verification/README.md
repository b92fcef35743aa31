# Verification of the scrapy_cffi protocols

scrapy_cffi is an asyncio crawler kernel whose hardest code is a set of small protocols: deciding that a
crawl is complete, committing Kafka offsets, downloading media by ranges, replacing failed clients,
deduplicating requests locally and in Redis. This project models them in Dafny and proves what they keep
in every run.

Every piece of code between two `await`s is one atomic step, and an interleaving is any sequence of such
steps. Objects that change their fields are classes whose methods are proved against functions on values;
the properties of whole runs are lemmas about those functions. Servers, brokers and clients of other
vendors are arbitrary answers or sets with step functions; clocks are parameters.

| file | what it is about |
|---|---|
| `Common.dfy` | options, quotients, and reachability by interleaved steps |
| `TaskManager.dfy`, `Completion.dfy`, `CompletionProofs.dfy`, `CompletionLosses.dfy` | completion detection |
| `KafkaOffsets.dfy`, `KafkaDelivery.dfy` | contiguous commits and at-least-once delivery |
| `MediaDownload.dfy`, `MediaProofs.dfy` | ranged downloads |
| `Resilience.dfy`, `ResourceSlots.dfy`, `ResourceSlotProofs.dfy` | bounded retry and the replaceable resource |
| `Dedup.dfy`, `DedupRouting.dfy`, `JumpHash.dfy` | exact deduplication, key routing, consistent hashing |
| `BloomDedup.dfy`, `BloomFilter.dfy`, `Fnv.dfy` | approximate deduplication |
| `BrokerLeases.dfy`, `StartMessages.dfy` | leased requests and start messages of the Redis and RabbitMQ schedulers |
| `Monitor.dfy` | the monitor store |
| `Sessions.dfy` | session closing and the request limiter |
| `FFmpeg.dfy` | the process manager |
| `GrpcFraming.dfy` | gRPC frames |
| `RequestCodec.dfy`, `StateCodec.dfy`, `RequestBytes.dfy` | serialized requests: values, envelope, and the whole trip |

`dafny verify dfyconfig.toml` checks everything.

## Where the code does less than one would expect

Each of these is proved together with its exact condition: the branch, step or input without which it
does not happen. Most come with a concrete run.

- Completion can be declared while a request is still queued, but only once an id has come to have two
  holders: a callback that yields its own response's request (or copies its `meta`), an interceptor that
  returns another live request, or a WebSocket that hands its request on while it is still open
  (`CompletionLosesOnlySharedRequests`, `SharingIsExactlyThese`, `ReyieldedRequestIsLost`,
  `RetriedSocketIsLost`). With distinct ids the return is final (`CompletionIsFinal`).
- Completion is never declared once a pending request has lost its last holder without being released. For
  an unshared id this happens exactly through an interceptor that answers a request with another one, a
  chain or download that drops it, a callback that raises, or a result that is not rescheduled
  (`OnlyDropsAbandon`, `AbandonedNeverCompletes`, `ReplacedRequestIsAbandoned`).
- A truthful server that withholds the complete length, together with a declared `media_size` that is too
  small, yields a silently shortened body; a declared size that is too large fails at the end
  (`DownloadIsExpected`).
- `ResourceSlot.close` does not end the generation, so a recovery that was waiting for the lock fills the
  closed slot again (`CloseCanBeUndone`).
- The two keys of a deduplication pair land in one slot only if no empty `{}` from the namespace, and no
  unfinished or empty brace in the filter key, comes before the shared tag (`PairSharesOneSlot`).
- A deduplication script retried after its reply was lost reports a fresh request as seen
  (`RetriedScriptOnlyRejects`).
- A server that leaves out Content-Range on 206 while no total is known is refused, and a declared size that is
  too large is then reported as a wrong length or as a changed total, depending on where the parts end
  (`DownloadIsExpected`).
- The monitor counts an `engine_stopped` event that also ends its run twice against its worker: while another
  run of that worker has engines, one of these is lost, and the worker can show as stopped
  (`WorkerCountStaysTheSum`, `StoppedWhileRunning`).
- The monitor rejects a newer event that reuses the last accepted event id (`NewerEventIsRejected`), and a
  stale event from an unknown worker is an error (`MonitorStore.Record`).
- `requeue_inflight` pushes a request again that completed after the snapshot, at most once per completion
  (`RepeatsAreCompletions`, `NothingRepeatedWhenExact`, `CompletedAndReturned`), and on the Redis list path
  ignores whether the push was accepted (`ListStartsComeBack`).
- Of the values a request may carry, `{"__bytes__": b""}` does not survive serialization although `b""` is
  falsy: the mark is looked at after encoding (`TripIsExactlyPlain`).
- An ended session that nobody uses is closed by nothing exactly when it was created anew after its end and
  has not been queued since. That is also the case after it was acquired and released while its predecessor
  was being closed (`EndedSessionsGoAway`, `MissedExactlyBy`, `RecreatedWhileClosing`).
- A session is closed while it is in use exactly when it was acquired, unused, after it had been queued
  (`PendingInUse`, `PendingInUseExactlyBy`, `ClosedWhileInUse`).
- An FFmpeg handle is settled while its process lives exactly when its input cannot be written
  (`SettledAliveExactlyBy`, `ProcessesEndWithTheirHandles`, `FailedInputLeavesAProcess`). One whose runner is
  cancelled from outside before its first step, or again while it awaits the process it has killed, is left
  unsettled with nobody to settle it but a caller's `stop` of the queued one (`LostExactlyBy`,
  `UnsettledHasARunner`, `CancelledTwiceIsLost`).
- A runner of a created process that is cancelled from outside while its `finally` block awaits the streams
  never releases its slot; when all slots are gone, no queued process starts any more (`LeakedExactlyBy`,
  `LeakedSlotsAreGone`, `CancelledWhileDraining`).

## Model

| member | source | states |
|---|---|---|
| `TaskManagement.TaskManager.Register` | scrapy_cffi/core/tasks.py:98-113 | the counters by task name and by owner, and the three kinds of events, again describe exactly the living tasks after one more is created |
| `TaskManagement.TaskManager.Finish` | scrapy_cffi/core/tasks.py:81-103 | ... and after a task ends, through the decrements and pops of the finally block; the manager-wide event is set exactly when nothing is left |
| `TaskManagement.TaskManager.HasWork` | scrapy_cffi/core/tasks.py:207-222 | the scan over the name counters is true exactly when some living task of that owner is not excluded by a prefix |
| `TaskManagement.TaskManager.QuiescentScan` | scrapy_cffi/core/tasks.py:158-183 | one round of wait_for_object_quiescent: quiet exactly when no such task lives, and the activity event is cleared only when it is about to be awaited |
| `TaskManagement.TaskManager.CountWithPrefix` | scrapy_cffi/core/tasks.py:242-258 | the capacity count is the number of living tasks of the owner under those prefixes |
| `Completion.RequestLedger.TrackRequest` | scrapy_cffi/core/engine.py:160-170 | an id already in meta is kept, otherwise the next fresh one is handed out; the idle event is cleared exactly when a new id is added |
| `Completion.RequestLedger.ReleaseRequest` | scrapy_cffi/core/engine.py:172-179 | the id is given up and the idle event set once none is pending |
| `CompletionProofs.StepKeepsInvariant` | scrapy_cffi/core/engine.py:160-210 | every step of every task, scheduler loop, producer and watcher keeps: an unshared id that anything holds has one holder and is pending, the idle event is set exactly when none is pending, ids are fresh |
| `CompletionProofs.ReachableIsInvariant` | scrapy_cffi/core/engine.py:188-210 | the same in every reachable state of every interleaving, and a returned watcher left nothing behind unless ids were shared |
| `CompletionProofs.CompletionLosesOnlySharedRequests` | scrapy_cffi/core/engine.py:188-210 | when the watcher returns the producer is done, no work task is counted and no id is pending; a request still queued or held has a shared id |
| `CompletionProofs.CompletionIsFinal` | scrapy_cffi/core/engine.py:188-210 | with no shared ids, after the return the queue is empty, no loop holds a request, no task is left and no step is possible any more |
| `CompletionProofs.WatcherWaits` | scrapy_cffi/core/engine.py:195-210 | what each phase of the watcher waits for, and that it returns exactly when no id is pending after a quiet scan |
| `CompletionProofs.CompletionIsDetected` | scrapy_cffi/core/engine.py:195-210 | once producer, work tasks and pending ids are over, the watcher's own steps lead from that very state to its return: it is never stuck |
| `CompletionProofs.OnlyDropsAbandon` | scrapy_cffi/core/engine.py:340-407 | an unshared id is pending without a holder after a step exactly when it was before, or when that step drops the request it holds: replaced by another one, dropped by a chain or download, its callback raises, or a result that is not rescheduled |
| `CompletionProofs.AbandonedNeverCompletes` | scrapy_cffi/core/engine.py:188-210 | once that has happened, completion is not declared in any continuation that does not share its id |
| `CompletionProofs.ChildOutlivesItsSource` | scrapy_cffi/core/engine.py:160-179 | a child accepted while its source is owned survives the release of the source exactly when its meta does not carry the source id |
| `CompletionProofs.SharingIsExactlyThese` | scrapy_cffi/core/engine.py:244-302 | which id gets a second holder by which step, and that no other step shares any |
| `CompletionProofs.NoWorkIsTheScan` | scrapy_cffi/core/tasks.py:165-177 | the model's "no work task" is what the scan over task names computes for this engine and these excluded prefixes |
| `CompletionLosses.ReyieldedRequestIsLost` | scrapy_cffi/core/engine.py:244-270 | a concrete interleaving in which a callback yields its own request again and the crawl is declared complete with that request queued |
| `CompletionLosses.RetriedSocketIsLost` | scrapy_cffi/core/engine.py:455-478 | a concrete interleaving in which a failed WebSocket connection is rescheduled and then lost in the same way |
| `CompletionLosses.ReplacedRequestIsAbandoned` | scrapy_cffi/core/engine.py:347-349 | a concrete interleaving in which an interceptor answers with a fresh request and the replaced one stays pending for good |
| `KafkaOffsets.MarkDone` | scrapy_cffi/infra/kafka/client.py:366-371 | the search loop marks the first entry of the deque with that offset and reports whether there is one |
| `KafkaOffsets.PopDone` | scrapy_cffi/infra/kafka/client.py:373-376 | the popping loop removes exactly the leading completed entries and yields one past the last of them |
| `KafkaOffsets.Settle` | scrapy_cffi/infra/kafka/client.py:362-385 | both loops on the deque of a lease: found exactly when the offset is outstanding, and a commit is due exactly when the oldest outstanding delivery is acknowledged |
| `KafkaOffsets.KafkaClient.DequeueRequest` | scrapy_cffi/infra/kafka/client.py:323-349 | a delivery appends to the account of its partition, and the deques still are the accounts |
| `KafkaOffsets.KafkaClient.AckRequest` | scrapy_cffi/infra/kafka/client.py:351-389 | the deques refine the plain account of delivered and acknowledged offsets for every partition; refused exactly when the offset is not outstanding |
| `KafkaOffsets.KafkaClient.CloseTransport` | scrapy_cffi/infra/kafka/client.py:508-532 | a closed client has forgotten every lease |
| `KafkaOffsets.FrontierSeparates` | scrapy_cffi/infra/kafka/client.py:373-385 | below the frontier every delivery is acknowledged, and the first unacknowledged delivery comes right after it |
| `KafkaOffsets.CommittedIsTheFrontier` | scrapy_cffi/infra/kafka/client.py:351-389 | while no commit fails the committed offset is one past the longest fully acknowledged prefix, after any deliveries and acknowledgements |
| `KafkaOffsets.CommittedNeverRetreatsNorOvertakes` | scrapy_cffi/infra/kafka/client.py:351-389 | whatever commits fail, the committed offset never moves back and never passes an unacknowledged delivery |
| `KafkaOffsets.AckOrderIsIrrelevant` | scrapy_cffi/infra/kafka/client.py:351-389 | a given set of acknowledgements leads to the same account in every order |
| `KafkaDelivery.KafkaScheduler.Lease` | scrapy_cffi/core/scheduler/kafka.py:103-113 | get: the leased record is kept under its request, as in the protocol |
| `KafkaDelivery.KafkaScheduler.FinishPut` | scrapy_cffi/core/scheduler/kafka.py:92-101 | put after the push: a start message is taken out and acknowledged exactly when the push was accepted |
| `KafkaDelivery.KafkaScheduler.CompleteRequest` | scrapy_cffi/core/scheduler/kafka.py:115-118 | complete_request: the lease is popped once and its acknowledgement called for |
| `KafkaDelivery.KafkaScheduler.AttachStartReq` | scrapy_cffi/core/scheduler/kafka.py:131-132 | a start message is kept under the request made from it |
| `KafkaDelivery.StepKeepsSafety` | scrapy_cffi/core/scheduler/kafka.py:77-135 | every step, including crashes, client replacement and failing commits, keeps: what lies before the fetch position is finished or leased, what lies below the committed offset is finished |
| `KafkaDelivery.UnfinishedRecordsAreUncommitted` | scrapy_cffi/core/scheduler/kafka.py:77-118 | in every reachable state an unfinished work record, and a start record neither pushed on nor dismissed, lies at or above the committed offset |
| `KafkaDelivery.PoppingReaches` | scrapy_cffi/core/scheduler/kafka.py:103-113 | from any state, consuming alone reaches a state in which a record at or after the fetch position is delivered and at work, with no commit on the way |
| `KafkaDelivery.RestartRedelivers` | scrapy_cffi/core/scheduler/kafka.py:77-118 | from the state that a crash leaves of any reachable state, consuming alone delivers every unfinished record again |
| `KafkaDelivery.CompletedRecordIsCommitted` | scrapy_cffi/core/scheduler/kafka.py:115-118 | completing the oldest outstanding request, followed by its acknowledgement with a commit the broker takes, leaves the committed offset past its record |
| `KafkaDelivery.DismissedRecordIsCommitted` | scrapy_cffi/spiders/kafka.py:44-54 | the same for the oldest outstanding start record that yields no request |
| `KafkaDelivery.PushedRecordIsCommitted` | scrapy_cffi/core/scheduler/kafka.py:92-101 | the same for the one whose request is pushed, whose work record is there first |
| `KafkaDelivery.CommittedNeverDecreases` | scrapy_cffi/infra/kafka/client.py:351-389 | no step of any reachable state moves a committed offset back: not a late or repeated acknowledgement, a failed commit, a replaced client or a crash |
| `KafkaDelivery.LeasedUntilCompleted` | scrapy_cffi/core/scheduler/kafka.py:103-118 | a popped record stays leased to its request exactly until that completes or the process dies |
| `KafkaDelivery.AttachedUntilPushed` | scrapy_cffi/core/scheduler/kafka.py:92-132 | a start message is attached to its request and stays so exactly until that is pushed or the process dies |
| `KafkaDelivery.DueUntilCarriedOut` | scrapy_cffi/infra/kafka/client.py:351-389 | an acknowledgement called for is carried out, given up or lost with the process; after a refused commit, which only the oldest outstanding delivery causes, it is made again |
| `MediaDownload.MediaReq` | scrapy_cffi/core/sessions.py:469-556 | the loop against any server: final outcome, media_size and every Range asked are those of the transition function, and the request stays within its limits |
| `MediaDownload.PartReply` | scrapy_cffi/core/sessions.py:511-547 | the 206 branch: which fault is reported, what total and media_size become, and that an accepted part is not empty and stays within total and limit |
| `MediaDownload.Turn` | scrapy_cffi/core/sessions.py:475-549 | one round of the loop for every status |
| `MediaDownload.Unsatisfiable` | scrapy_cffi/core/sessions.py:494-501 | the 416 branch |
| `MediaDownload.WholeReply` | scrapy_cffi/core/sessions.py:512-518 | the 200 branch |
| `MediaDownload.Confirm` | scrapy_cffi/core/sessions.py:502-510 | the second request for an empty resource |
| `MediaProofs.ContentIsBounded` | scrapy_cffi/core/sessions.py:469-556 | whatever the server does: received bytes stay below a known total, delivered content has length media_size and never exceeds max_media_size |
| `MediaProofs.RunGrows` | scrapy_cffi/core/sessions.py:536-549 | every accepted part adds at least a byte behind the bytes received, and cannot change a total known by then |
| `MediaProofs.LimitedDownloadEnds` | scrapy_cffi/core/sessions.py:473-549 | with max_media_size set, no server can keep the loop going for more than max + 2 replies |
| `MediaProofs.KnownTotalEnds` | scrapy_cffi/core/sessions.py:473-549 | with a known total, the missing bytes bound the replies to come |
| `MediaProofs.EndlessServer` | scrapy_cffi/core/sessions.py:473-549 | with neither limit nor total, a server can keep it going for any number of replies |
| `MediaProofs.ContentIsTheResource` | scrapy_cffi/core/sessions.py:469-556 | from a truthful server the content is a front of the resource, and all of it unless it stops exactly at a smaller declared size |
| `MediaProofs.FirstReplySettlesTheTotal` | scrapy_cffi/core/sessions.py:536-543 | a wrong declared size is harmless when the first reply names the real one |
| `MediaProofs.CompleteReplyEnds` | scrapy_cffi/core/sessions.py:511-518 | a 200 reply at any moment ends the download: returned exactly when it has the known total, if any, and is within the limit, with media_size its length; otherwise which refusal follows |
| `MediaProofs.ConfirmingReplyEnds` | scrapy_cffi/core/sessions.py:502-510 | only an empty 200 reply confirms an empty resource |
| `MediaProofs.OtherRepliesEnd` | scrapy_cffi/core/sessions.py:486-522 | any other status, or a final error, ends the download at once |
| `MediaProofs.PartIsAccepted` | scrapy_cffi/core/sessions.py:480-549 | for any server, exactly which 206 replies are accepted, what data, total and media_size become, and why the others are refused; and which range is asked for |
| `MediaProofs.DownloadIsExpected` | scrapy_cffi/core/sessions.py:469-556 | against a server that serves ranges (RFC 9110, sections 14.2, 14.4, 15.3.7, 15.5.17) with or without telling the length, leaves out Content-Range, or ignores Range: exactly which outcome and media_size follow from resource, limit and declared size |
| `Resilience.Run` | scrapy_cffi/service/resilience.py:128-183 | the nested retry and recovery loops: outcome and every call made, for any behaviour of the environment |
| `Resilience.Recover` | scrapy_cffi/service/resilience.py:158-183 | the inner recovery loop |
| `Resilience.RetriesAreBounded` | scrapy_cffi/service/resilience.py:128-183 | at most max operations and max * (max - 1) / 2 recoveries |
| `Resilience.WorstRun` | scrapy_cffi/service/resilience.py:128-183 | both bounds are attained together from every resting point |
| `Resilience.RunsEnd` | scrapy_cffi/service/resilience.py:128-183 | a run is over after as many events as calls are left |
| `Resilience.RetryFollowsRecovery` | scrapy_cffi/service/resilience.py:135-183 | every retry directly follows a successful recovery of the attempt before, every recovery a retryable failure; no operation starts once stopped unless allowed; a run returns exactly when its last call is a successful operation |
| `Resilience.RunEndsAsItsLastCall` | scrapy_cffi/service/resilience.py:128-183 | every way a run can end, from its calls: cancelled and fatal exactly after such a call, the last retryable error exactly when attempt and failed recoveries come to max, stopped exactly when the stop event was set before an attempt |
| `ResourceSlots.ResourceSlot.Start` | scrapy_cffi/service/resilience.py:38-49 | start: current resource, generation and which resources have been closed, in every outcome |
| `ResourceSlots.ResourceSlot.Replace` | scrapy_cffi/service/resilience.py:51-73 | replace: the same, for stale observers, failing connections, and cancellation while the old resource closes |
| `ResourceSlots.ResourceSlot.Close` | scrapy_cffi/service/resilience.py:75-81 | close: the slot is empty, the generation unchanged |
| `ResourceSlotProofs.StepKeepsInvariant` | scrapy_cffi/service/resilience.py:38-81 | every step of concurrent operations, replacements, starts and closes keeps the accounts of the next three rows |
| `ResourceSlotProofs.GenerationsAreReplacedOnce` | scrapy_cffi/service/resilience.py:51-73 | in every reachable state the generation counts the successful replacements, and each generation is replaced once, by someone who had observed it |
| `ResourceSlotProofs.NoResourceIsLost` | scrapy_cffi/service/resilience.py:38-101 | every constructed resource is current, connecting or has had close attempted, and only one of these |
| `ResourceSlotProofs.RetriesUseNewerResources` | scrapy_cffi/repo/queue.py:103-116 | through the _run wrapper every retry runs on a strictly newer generation than the attempts before |
| `ResourceSlotProofs.LateFailureChangesNothing` | scrapy_cffi/service/resilience.py:51-73 | a failed operation constructs a new resource exactly when it had observed the current generation, which cannot move on while that one connects; a later one changes nothing and goes on to its retry |
| `ResourceSlotProofs.RunsStepAlone` | scrapy_cffi/repo/queue.py:103-116 | giving up, beginning and ending an attempt touch nothing but their run, each on the current generation |
| `ResourceSlotProofs.RecoveriesAreAnswered` | scrapy_cffi/service/resilience.py:51-73 | what a waiting run is told by each end of its replacement: the next attempt, a cancellation, or one more failed recovery |
| `ResourceSlotProofs.OnlyCloseEmpties` | scrapy_cffi/service/resilience.py:51-81 | a filled slot is emptied by close alone |
| `ResourceSlotProofs.CloseCanBeUndone` | scrapy_cffi/service/resilience.py:51-81 | after a close a waiting recovery fills the slot again exactly when it had observed the closed generation |
| `ResourceSlotProofs.ClosedSlotIsFilledAgain` | scrapy_cffi/service/resilience.py:51-81 | a reachable state in which that has happened |
| `Dedup.MemoryDupeFilter.RequestSeen` | scrapy_cffi/dupefilter/base.py:49-58 | the memory filter is the pair of sets; seen exactly when not fresh |
| `Dedup.MemoryDupeFilter.MarkSent` | scrapy_cffi/dupefilter/base.py:60-63 | a sent request is recorded unless it is not to be filtered |
| `Dedup.LocalScheduler.Put` | scrapy_cffi/core/scheduler/base.py:119-136 | a request enters its queue exactly when the specification accepts it |
| `Dedup.LocalScheduler.Get` | scrapy_cffi/core/scheduler/base.py:141-142 | first in, first out |
| `Dedup.RedisServer.DoFilter` | scrapy_cffi/repo/redis.py:132-154 | the SET script: accepts exactly a fresh fingerprint, and probing the sent set by SADD and SREM leaves it exactly as it was |
| `Dedup.RedisDupeFilter.RequestSeen` | scrapy_cffi/dupefilter/redis.py:35-50 | the sharded filter on its server |
| `Dedup.RedisDupeFilter.MarkSent` | scrapy_cffi/dupefilter/redis.py:52-56 | recording a sent request in its shard |
| `Dedup.ShardsAnswerAlike` | scrapy_cffi/dupefilter/redis.py:35-56 | for every call sequence the sharded filter answers like one pair of sets |
| `Dedup.FreshRedisAnswersLikeMemory` | scrapy_cffi/dupefilter/redis.py:35-56 | in particular an empty Redis answers like a new memory filter |
| `Dedup.DirectCallsDiffer` | scrapy_cffi/dupefilter/base.py:49-58 | asked without the scheduler, the memory filter parts from the others exactly over requests not to be filtered |
| `Dedup.AcceptedExactlyWhenNew` | scrapy_cffi/dupefilter/base.py:49-63 | a request is accepted exactly when no earlier call offered it or recorded it as sent; never twice |
| `Dedup.RetriedScriptOnlyRejects` | scrapy_cffi/repo/redis.py:132-154 | a script repeated after a lost reply leaves the same sets and answers with a rejection: it can lose a request, never accept it twice |
| `DedupRouting.CleanupKeys` | scrapy_cffi/dupefilter/routing.py:95-104 | the loop lists both keys of every node in order |
| `DedupRouting.CleanupCoversEveryFingerprint` | scrapy_cffi/dupefilter/routing.py:77-104 | every key a fingerprint can be routed to is in cleanup_keys |
| `DedupRouting.KeysAreDistinct` | scrapy_cffi/dupefilter/routing.py:77-93 | keys of different nodes or different kinds never coincide |
| `DedupRouting.NamespacesAreApart` | scrapy_cffi/dupefilter/routing.py:40-93 | filters of different namespaces share no key, in one Redis or at one node of a cluster |
| `DedupRouting.RouteFingerprint` | scrapy_cffi/dupefilter/routing.py:77-90 | the pair of a fingerprint is that of the node get_node returns, in a cluster with nodes, and the plain pair otherwise |
| `DedupRouting.PairSharesOneSlot` | scrapy_cffi/dupefilter/routing.py:77-93 | both keys of a pair hash the same tag (Redis Cluster specification, "Hash tags") exactly when no empty or unfinished brace precedes the shared one |
| `JumpHash.GetNode` | scrapy_cffi/utils/algorithm.py:31-49 | the loop ends and its bucket is the specified one, in range |
| `JumpHash.GrowingMovesOnlyToNewNodes` | scrapy_cffi/utils/algorithm.py:42-49 | with more nodes a key stays or moves to a new node |
| `JumpHash.OneMoreNode` | scrapy_cffi/utils/algorithm.py:42-49 | with one more node a key stays or moves to that node |
| `JumpHash.CandidateReaches` | scrapy_cffi/utils/algorithm.py:48-48 | a candidate is at least j exactly when j times the divisor is at most (bucket + 1) * 2^31 |
| `JumpHash.KeysArePermuted` | scrapy_cffi/utils/algorithm.py:47-47 | the step from key to key is a bijection of the 64-bit keys |
| `JumpHash.HalfOfTheKeysMove` | scrapy_cffi/utils/algorithm.py:42-49 | exactly half of the 2^64 keys leave the only node when a second one is added |
| `JumpHash.WorkedKeys` | scrapy_cffi/utils/algorithm.py:42-49 | known keys, which pin multiplier, increment and shift |
| `JumpHash.FloatsAgree` | scrapy_cffi/utils/algorithm.py:48-48 | below 2^22 nodes the quotient rounded to a double has the same floor as the exact one, for any rounding that behaves like IEEE 754 between 1 and 2^53 |
| `JumpHash.DoublesChooseTheSameNode` | scrapy_cffi/utils/algorithm.py:42-49 | so the loop as it runs chooses the specified node |
| `BloomDedup.BloomDupeFilter.RequestSeen` | scrapy_cffi/dupefilter/base.py:83-92 | the local Bloom filter: seen exactly when one bitmap has all positions; the new bits are set even then when only the sent ones match |
| `BloomDedup.RedisBitmaps.DoBloomFilter` | scrapy_cffi/repo/redis.py:156-200 | the bitmap script: same test, bits set only on acceptance |
| `BloomDedup.RedisBitmaps.MarkSent` | scrapy_cffi/dupefilter/redis.py:102-111 | the SETBIT pipeline sets exactly the value's positions |
| `BloomDedup.FiltersAreOrdered` | scrapy_cffi/repo/redis.py:163-190 | on every call sequence what the local filter accepts the script accepts, and what the script accepts the exact sets accept |
| `BloomDedup.NeverAcceptedTwice` | scrapy_cffi/dupefilter/base.py:83-97 | neither Bloom variant accepts a fingerprint twice or after it was sent |
| `BloomDedup.AlikeWhenSentAfterPut` | scrapy_cffi/repo/redis.py:163-190 | the two variants answer alike when requests are recorded as sent only after being offered |
| `BloomDedup.ScriptAcceptsMore` | scrapy_cffi/dupefilter/base.py:83-92 | a call sequence on which they differ otherwise |
| `BloomFilters.BloomFilter.constructor` | scrapy_cffi/platform/bloom.py:92-98 | sizes: rounded up to whole bytes in the platform filter, kept in the C one; no bit set |
| `BloomFilters.BloomFilter.Add` | scrapy_cffi/platform/bloom.py:100-104 | add sets exactly the derived positions and clears none |
| `BloomFilters.BloomFilter.Exists` | scrapy_cffi/platform/bloom.py:106-111 | exists is true exactly when all derived positions are set |
| `BloomFilters.BloomFilter.SetBit` | examples/c_bloom/bloom.c:17-19 | one byte written, one position set, no other touched |
| `BloomFilters.BloomFilter.Clear` | scrapy_cffi/platform/bloom.py:118-121 | no position is left |
| `BloomFilters.KmIndices` | scrapy_cffi/platform/bloom.py:75-83 | as many indices as probes, all in range |
| `BloomFilters.IndicesStepRound` | scrapy_cffi/platform/bloom.py:75-83 | the first index is the first hash, and every further one is one constant step round the bitmap |
| `BloomFilters.HoldsExactlyWhatWasAdded` | scrapy_cffi/platform/bloom.py:100-121 | over whole lives of adds and clears the set positions are exactly those of what was added since the last clear |
| `BloomFilters.NoFalseNegatives` | scrapy_cffi/platform/bloom.py:106-111 | nothing added since the last clear is reported absent |
| `Fnv.HashC` | examples/c_bloom/bloom.c:8-15 | the loop on 32-bit words |
| `Fnv.HashPython` | scrapy_cffi/cpy/cpy_resources/bloom/fallback.py:4-11 | the loop on unbounded integers |
| `Fnv.VariantsAgree` | scrapy_cffi/cpy/cpy_resources/bloom/fallback.py:4-11 | both variants agree exactly when there is data or the seed fits 32 bits |
| `Fnv.IndicesAgree` | examples/c_bloom/bloom.c:84-90 | the derived index lists are the same for every value |
| `Fnv.SeedsAreKeptApart` | examples/c_bloom/bloom.c:8-15 | a round is one to one on 32-bit hashes, so the seeded hashes of one value are all different |
| `Fnv.KnownHashes` | scrapy_cffi/cpy/cpy_resources/bloom/fallback.py:4-11 | the published hashes of nothing and of "a" |
| `Monitor.MonitorStore.Record` | scrapy_cffi/monitoring/store.py:38-201 | record: a stale event changes nothing and fails exactly when its worker is unknown; an accepted one gives its run and its worker the merged state and counts, leaves the others alone and evicts as the next rows say |
| `Monitor.MonitorStore.IsStale` | scrapy_cffi/monitoring/store.py:74-85 | stale exactly when the id is that of the last accepted event or a positive sequence is not newer |
| `Monitor.MonitorStore.EnforceLimits` | scrapy_cffi/monitoring/store.py:173-201 | afterwards both maps are within their limits, no fewer entries than necessary are kept, and nothing kept should have gone first |
| `Monitor.MonitorStore.RecordWorker` | scrapy_cffi/monitoring/store.py:87-121 | the worker snapshot and its engine count |
| `Monitor.OldestRun` | scrapy_cffi/monitoring/store.py:182-188 | the eviction victim comes first among all runs: terminal before running, then by age |
| `Monitor.StreamIsItsRisingPart` | scrapy_cffi/monitoring/store.py:38-85 | for positive sequences and unambiguous ids a stream with duplicates and stale arrivals leaves the run that its strictly rising part alone leaves |
| `Monitor.RunShowsLastNews` | scrapy_cffi/monitoring/store.py:123-157 | over any stream, whatever states it names: a run shows what the last accepted event says that names a state, starts something or stops the last engine; and its engine count |
| `Monitor.SnapshotIsLatest` | scrapy_cffi/monitoring/store.py:141-157 | worker, time and details are those of the last accepted event, spiders those that any of them named |
| `Monitor.WorkerShowsLastNews` | scrapy_cffi/monitoring/store.py:87-121 | the same for a worker: the state last named, active after a start, active or stopped by the count after a stop |
| `Monitor.WorkerCountStaysTheSum` | scrapy_cffi/monitoring/store.py:55-105 | a worker's count stays the sum over its runs, exactly unless a stop also ends its run, or comes from a run without engines, while other runs have engines |
| `Monitor.StoppedWhileRunning` | scrapy_cffi/monitoring/store.py:55-105 | one of two runs ends as its only engine stops, and the worker shows as stopped |
| `Monitor.EnginesAreCounted` | scrapy_cffi/monitoring/store.py:123-157 | over a stream of events a run's engine count is started minus stopped; it completes when its last engine stops, and is not complete while one runs |
| `Monitor.WorkerStopsWithItsEngines` | scrapy_cffi/monitoring/store.py:87-105 | over a stream of events a worker's count is started minus stopped; it shows as stopped exactly when none runs and the last news was a stop, and as active while one runs |
| `Monitor.SequenceNeverDecreases` | scrapy_cffi/monitoring/store.py:74-85 | a run's sequence never decreases, whatever arrives |
| `Monitor.NewerEventIsRejected` | scrapy_cffi/monitoring/store.py:79-80 | a newer event is turned away exactly when it reuses the last accepted id, and then the run differs |
| `Monitor.RunningRunsStay` | scrapy_cffi/monitoring/store.py:173-191 | as many running runs are evicted as exceed the limit by themselves, so none while an ended one can go; of two alike the older goes |
| `Monitor.WorkersUpStay` | scrapy_cffi/monitoring/store.py:192-201 | the same for workers: stopped ones make room first |
| `BrokerLeases.WorkScheduler.Get` | scrapy_cffi/core/scheduler/redis.py:209-217 | pop and lease |
| `BrokerLeases.WorkScheduler.CompleteRequest` | scrapy_cffi/core/scheduler/redis.py:91-92 | a completed request loses its lease |
| `BrokerLeases.WorkScheduler.RequeueInflight` | scrapy_cffi/core/scheduler/rabbitmq.py:106-113 | undisturbed, requeue_inflight pushes the leases in order, keeps exactly those whose push was refused, and reports how many it moved |
| `BrokerLeases.AllReturned` | scrapy_cffi/core/scheduler/redis.py:102-111 | with every push accepted no lease is left and each unfinished request is back once |
| `BrokerLeases.RequeueConserves` | scrapy_cffi/core/scheduler/redis.py:102-111 | whatever the broker answers, kept and returned are together what was leased |
| `BrokerLeases.WorkIsConserved` | scrapy_cffi/core/scheduler/redis.py:87-111 | over every interleaving queued + leased + completed is, payload by payload, what was pushed plus what was returned after completing |
| `BrokerLeases.RepeatsAreCompletions` | scrapy_cffi/core/scheduler/rabbitmq.py:84-113 | over every interleaving a payload is returned too often at most once per completion, so no more copies are queued or leased than were pushed |
| `BrokerLeases.NothingRepeatedWhenExact` | scrapy_cffi/core/scheduler/rabbitmq.py:84-113 | nothing came back after completing exactly when, for every payload, queued + leased + completed is what was pushed |
| `BrokerLeases.CompletedAndReturned` | scrapy_cffi/core/scheduler/rabbitmq.py:106-113 | a run in which that happens |
| `StartMessages.StreamTasksAreConserved` | scrapy_cffi/core/scheduler/redis.py:77-121 | on the stream path, in every reachable state and task by task, also around crashes: what arrived or was repeated by a lost acknowledgement is handed over, dismissed, or carried by an entry not about to be acknowledged |
| `StartMessages.NoStreamTaskIsLost` | scrapy_cffi/core/scheduler/redis.py:97-121 | so no task is lost: each is handed over, dismissed or carried |
| `StartMessages.CarriersGoOn` | scrapy_cffi/core/scheduler/redis.py:94-121 | each such entry waits for delivery, is in hand, or is attached to one request; after a crash all of them wait |
| `StartMessages.AttachedUntilPushed` | scrapy_cffi/core/scheduler/redis.py:94-121 | a message stays attached to its request exactly until a push is accepted, it is re-added, or the process dies; then it is acknowledged |
| `StartMessages.RequeueListStarts` | scrapy_cffi/core/scheduler/redis.py:112-121 | on the list path the broker's answer is ignored: all messages leave the table and all are counted |
| `StartMessages.ListStartsComeBack` | scrapy_cffi/core/scheduler/redis.py:112-121 | so they are all back exactly when the broker accepts every push |
| `GrpcFraming.LengthFromBytes` | scrapy_cffi/platform/protobuf.py:82-93 | lengths in range, and only those, encode, and come back |
| `GrpcFraming.BytesFromLength` | scrapy_cffi/platform/protobuf.py:82-93 | any four bytes, and only four, decode, and come back |
| `GrpcFraming.SplitOfJoin` | scrapy_cffi/platform/protobuf.py:122-145 | every list of frames is recovered from its bytes |
| `GrpcFraming.JoinOfSplit` | scrapy_cffi/platform/protobuf.py:122-145 | bytes that split are exactly the bytes of their frames |
| `GrpcFraming.SplitDistributes` | scrapy_cffi/platform/protobuf.py:122-145 | decoding distributes over concatenation at a frame boundary |
| `GrpcFraming.CutStream` | scrapy_cffi/platform/protobuf.py:126-138 | a stream cut anywhere is accepted only between frames, yielding those before the cut; otherwise header or body is reported incomplete |
| `GrpcFraming.CutBetweenFrames` | scrapy_cffi/platform/protobuf.py:122-145 | and a cut between frames is accepted |
| `GrpcFraming.GrpcDecode` | scrapy_cffi/platform/protobuf.py:122-145 | the loop returns the messages of the stream, unwrapped when there is one, or the first fault |
| `GrpcFraming.FirstFrameFaults` | scrapy_cffi/platform/protobuf.py:122-145 | what is wrong with a stream is what is wrong with its first frame, fault by fault, or with the rest |
| `GrpcFraming.MessagesRoundTrip` | scrapy_cffi/platform/protobuf.py:95-145 | for inverse payload codec and gzip, every stream that encodes decodes to the same messages |
| `GrpcFraming.EncodingFails` | scrapy_cffi/platform/protobuf.py:82-120 | encoding fails exactly when a message is too long for four bytes of length |
| `GrpcFraming.MessagesAreOpenedFrames` | scrapy_cffi/platform/protobuf.py:122-145 | a stream decodes exactly when it splits into frames that all open, message by message |
| `RequestCodec.TripIsExactlyPlain` | scrapy_cffi/core/downloader/internet/request.py:103-151 | a value survives encoding, JSON and decoding exactly when it has string keys, no tuples, messages with flags, and no dictionary marked like an encoded value |
| `RequestCodec.EncodedIsJsonable` | scrapy_cffi/core/downloader/internet/request.py:104-116 | whatever is encoded is accepted by json.dumps |
| `RequestCodec.MsgTravels` | scrapy_cffi/models/request.py:25-36 | a message survives with its flags, or with BINARY when it had none |
| `RequestCodec.OtherKeysAreLost` | scrapy_cffi/core/downloader/internet/request.py:112-113 | a dictionary with another key never comes back |
| `RequestCodec.LoadedKeepsLast` | scrapy_cffi/core/downloader/internet/request.py:112-113 | of names that JSON makes equal the last value remains |
| `RequestCodec.FalsyValues` | scrapy_cffi/core/downloader/internet/request.py:139-145 | which marks of encoded values count as false |
| `RequestCodec.KwargsAreChecked` | scrapy_cffi/core/downloader/internet/request.py:153-159 | keyword arguments that clash with an attribute are refused, and missing ones are none |
| `RequestBytes.BytesRoundTrip` | scrapy_cffi/core/downloader/internet/request.py:104-159 | from_bytes(to_bytes(r)) is r exactly when its encoded fields are plain, JSON leaves its other fields as they are, and its JSON text is within the limit |
| `RequestBytes.BytesCarryTheTrip` | scrapy_cffi/core/downloader/internet/request.py:126-159 | whatever to_bytes accepts arrives as what encoding, JSON and decoding make of its fields, and nothing else arrives |
| `StateCodec.DecodeState` | scrapy_cffi/utils/state_codec.py:35-64 | decode_state with its two calls of the decompressor, of which flush is unbounded: together they produce never more than one byte beyond the limit |
| `StateCodec.StateRoundTrip` | scrapy_cffi/utils/state_codec.py:14-32 | state is refused exactly when too large, otherwise decoded again; the envelope costs at most five bytes |
| `StateCodec.DecodedIsBounded` | scrapy_cffi/utils/state_codec.py:35-64 | no payload decodes to more than the limit, and only payloads with the magic and a known encoding decode |
| `StateCodec.EncodedIsShortest` | scrapy_cffi/utils/state_codec.py:20-32 | the payload is five bytes of envelope and the shorter of text and compressed text |
| `StateCodec.AcceptedExactly` | scrapy_cffi/utils/state_codec.py:43-64 | exactly what decodes: text within the limit, or a stream that ends properly with nothing behind it and an output within the limit; and which fault the rest is |
| `Sessions.SessionManager.Acquire` | scrapy_cffi/core/sessions.py:829-834 | reference counts go up, not for the default session |
| `Sessions.SessionManager.Release` | scrapy_cffi/core/sessions.py:836-848 | ... and down, possibly below zero; an ended session without references is queued once |
| `Sessions.SessionManager.MarkEnd` | scrapy_cffi/core/sessions.py:858-872 | ending a group ends every member, ending a session takes it out of its group |
| `Sessions.SessionManager.MarkEndSingle` | scrapy_cffi/core/sessions.py:850-856 | flag, and queue when unused and not pending |
| `Sessions.SessionManager.RegisterBatch` | scrapy_cffi/core/sessions.py:760-798 | only sessions that are not there yet are created and become members |
| `Sessions.EndingAGroup` | scrapy_cffi/core/sessions.py:858-872 | ending a group ends exactly its members, queues exactly those that are unused and not pending, once each and in order, and changes nothing else |
| `Sessions.EndingASession` | scrapy_cffi/core/sessions.py:850-872 | ending a session ends it alone and takes its first mention out of its group |
| `Sessions.RegisteringABatch` | scrapy_cffi/core/sessions.py:760-798 | a batch creates exactly the sessions that are not there, and the group lists exactly these, once each and in order |
| `Sessions.RegisteredGroupsEnd` | scrapy_cffi/core/sessions.py:760-872 | registering and ending a group ends, and queues unless in use, every session it created |
| `Sessions.ReaperClosesTheOldest` | scrapy_cffi/core/sessions.py:874-898 | undisturbed, the reaper closes the oldest queued session and is free again |
| `Sessions.StepKeepsInvariant` | scrapy_cffi/core/sessions.py:829-898 | every step of callers and reaper keeps the accounts of the next rows |
| `Sessions.PendingIsExact` | scrapy_cffi/core/sessions.py:829-887 | in every reachable state the pending set is exactly the queue and the session being closed; no id is queued twice; only ended ones are; the default session never is |
| `Sessions.EndedSessionsGoAway` | scrapy_cffi/core/sessions.py:829-898 | an ended unused session is queued, being closed, gone, or missed; and it is missed exactly when it was created anew after its end and not queued since |
| `Sessions.MissedExactlyBy` | scrapy_cffi/core/sessions.py:730-758 | the two steps by which a session comes to be missed: its creation after its end, and the end of closing its predecessor while nobody uses it |
| `Sessions.PendingInUse` | scrapy_cffi/core/sessions.py:829-898 | a session waiting to be closed, or being closed, is in use only if it was acquired after it was queued |
| `Sessions.PendingInUseExactlyBy` | scrapy_cffi/core/sessions.py:829-856 | acquiring an unused pending session is the one step by which that comes about |
| `Sessions.QueuedWhenUnused` | scrapy_cffi/core/sessions.py:836-872 | whatever a step queues is ended and has no references at that moment |
| `Sessions.ClosedWhileInUse` | scrapy_cffi/core/sessions.py:829-898 | a reachable state in which a session is closed while it is in use again |
| `Sessions.RecreatedWhileClosing` | scrapy_cffi/core/sessions.py:874-898 | a reachable state in which a session created anew and released during its closing is missed |
| `Sessions.RequestLimiter.Wait` | scrapy_cffi/core/sessions.py:334-345 | one admission: when the request starts and when the next may, for any clock |
| `Sessions.StartsAreSpaced` | scrapy_cffi/core/sessions.py:334-345 | over any sequence of admissions, two starts are as far apart as the rate demands, up to the time by which a sleep may end early |
| `Sessions.NobodyWaitsLonger` | scrapy_cffi/core/sessions.py:334-345 | a request starts at once unless its planned start is to come, which is one interval after the start before it, up to the time by which that one was early |
| `FFmpeg.TailBuffer.Append` | scrapy_cffi/utils/ffmpeg.py:88-107 | the buffer always is the last `limit` bytes of everything appended |
| `FFmpeg.FFmpegProcess.Complete` | scrapy_cffi/utils/ffmpeg.py:623-650 | the first result settles the handle, later ones change nothing |
| `FFmpeg.FFmpegProcess.RequestStop` | scrapy_cffi/utils/ffmpeg.py:276-347 | stop and kill up to their first await, for every state of the handle |
| `FFmpeg.FFmpegProcess.Settle` | scrapy_cffi/utils/ffmpeg.py:454-470 | the terminal state of an exited process |
| `FFmpeg.MoveKeepsConsistent` | scrapy_cffi/utils/ffmpeg.py:276-490 | every move of stop, kill, runner and process keeps: settled, terminal and untracked are the same; a live tracked process has a runner holding a slot; a live process of a settled handle had a failing input |
| `FFmpeg.SettledForGood` | scrapy_cffi/utils/ffmpeg.py:623-650 | a settled handle keeps its state and its result for good |
| `FFmpeg.HandlesAreSound` | scrapy_cffi/utils/ffmpeg.py:599-650 | in every reachable state a handle is tracked exactly while unsettled; success means exit code zero, no stop request, no failed callback |
| `FFmpeg.ExitIsClassified` | scrapy_cffi/utils/ffmpeg.py:448-470 | each terminal state of an exited process for exactly these stop requests, callbacks and exit codes |
| `FFmpeg.SettlesAs` | scrapy_cffi/utils/ffmpeg.py:448-485 | the state with which a handle is settled, whatever settles it |
| `FFmpeg.StopsAreRecorded` | scrapy_cffi/utils/ffmpeg.py:276-347 | what stop and kill leave behind for running, starting and queued handles |
| `FFmpeg.StoppedWhileQueued` | scrapy_cffi/utils/ffmpeg.py:288-300 | a queued handle that was stopped never creates a process |
| `FFmpeg.RequestsStay` | scrapy_cffi/utils/ffmpeg.py:276-347 | a request to stop or kill is never forgotten, and none appears but by a call, an escalation or a cancellation |
| `FFmpeg.OnlyGrantsWait` | scrapy_cffi/utils/ffmpeg.py:401-404 | no move is held up but that of a runner waiting for the semaphore while no slot is free |
| `FFmpeg.UnsettledHasARunner` | scrapy_cffi/utils/ffmpeg.py:386-490 | in every reachable state the runner of an unsettled handle has left it exactly when it was lost by a cancellation from outside |
| `FFmpeg.LostExactlyBy` | scrapy_cffi/utils/ffmpeg.py:386-490 | which is a cancellation of the runner before its first step, or again while it awaits the process it has killed |
| `FFmpeg.SettledAliveExactlyBy` | scrapy_cffi/utils/ffmpeg.py:444-485 | failing to write the input is the one move that settles a handle whose process is alive |
| `FFmpeg.ProcessesEndWithTheirHandles` | scrapy_cffi/utils/ffmpeg.py:386-490 | in every reachable state a process outlives its settled handle exactly when its input failed and it has not ended by itself |
| `FFmpeg.LeakedExactlyBy` | scrapy_cffi/utils/ffmpeg.py:486-490 | a slot is leaked exactly by a cancellation from outside while the finally block awaits the streams, and never given back |
| `FFmpeg.LeakedSlotsAreGone` | scrapy_cffi/utils/ffmpeg.py:401-404 | free and leaked slots together never exceed max_processes, and once all are leaked no run from there lets another process in |
| `FFmpeg.LimitIsKept` | scrapy_cffi/utils/ffmpeg.py:203-215 | never more live tracked processes than max_processes, but for handles whose runner was cancelled from outside a second time |
| `FFmpeg.CancelledTwiceIsLost` | scrapy_cffi/utils/ffmpeg.py:471-475 | a reachable state in which a second cancellation leaves a tracked live process that nobody settles, with its slot free |
| `FFmpeg.CancelledWhileDraining` | scrapy_cffi/utils/ffmpeg.py:471-490 | a reachable state in which the only slot is leaked although its handle is settled and its process has ended |
| `FFmpeg.FailedInputLeavesAProcess` | scrapy_cffi/utils/ffmpeg.py:471-490 | when writing the input raises, the handle is settled and its slot freed while the process lives on |

## Left out

- Cancellation, forced shutdown, exceptions other than the modelled ones and the distributed scheduler in
  completion detection: `stop_event` stays unset and scheduler loops live for ever.
- Task labels are pairs of function and engine, where the code searches for `[id]` inside the task name; a
  task leaves the counts in the step in which its body ends, where the code decrements them a moment later,
  which can only delay the watcher.
- The engine's tasks, the broker side of the Kafka protocol, the start tables and the FFmpeg manager are
  transition systems over values, because their steps interleave; what a step updates in place is one
  atomic change, and aliasing of request objects appears only as shared ids.
- One local queue per engine in completion detection; the downloader's capacity limit, which only delays
  the scheduler loops, is modelled as the count of `CountWithPrefix` alone.
- KafkaOffsets.KafkaClient.DequeueRequest: requires the offsets of a partition to be delivered in increasing
  order within one client generation, which the consumer guarantees and the code does not check.
- KafkaDelivery.RestartRedelivers: topic creation, consumer-group rebalancing between processes and the
  retention of old records are not modelled; brokers keep every record.
- The transport below `media_req` (retries of one range, rate limiting, the HTTP session): one reply or one
  final error per request. Header texts are taken as the two regular expressions read them.
- Resilience.Run: delays are not timed; a cancellation during a delay counts as one of the call before it.
- ResourceSlots: a factory that raises before constructing anything, and names of lifecycle methods.
- `DEDUP_TTL` expiry, the construction of fingerprints, and MD5, SHA-1 and XXH3, which are arbitrary
  functions here.
- BloomDedup.FiltersAreOrdered: one bitmap pair; the sharding of bitmaps over nodes is not repeated for the
  Bloom variant.
- JumpHash.FloatsAgree: says nothing about 2^22 or more nodes, where a rounded quotient may reach the next
  integer.
- The choice of the number of Bloom probes, the estimated false-positive rate and the Rust filter.
- Fnv.HashC: `size_t` seeds are arbitrary numbers here; a 32-bit `size_t` would cut them earlier.
- Monitor.WorkerCountStaysTheSum: per event, since eviction of a run forgets its count but not its worker's;
  the derived `active_runs` field and the two listing methods are not modelled.
- Spider names are kept as a set; the store keeps them sorted.
- RabbitMQ start messages, which are requeued like work requests; session persistence in Redis.
- Floats, surrogate characters and the characters of the JSON text in request serialization: `json.dumps`
  and `json.loads` are any pair that does to values what JSON does. Dictionaries inside a field are compared
  with their order, which JSON keeps; the fields of a request are a map.
- RequestBytes.BytesRoundTrip: the constructors' normalizations (upper-case method, joined URL parameters,
  a single message made a list) are taken as already applied.
- The blackboxprotobuf wire codec and gzip, which are assumed to be inverse to their decoders.
- Sessions after `freeze()` and during shutdown, and what closing a session does to its connections.
- Timeouts and signals of FFmpeg processes: the operating system may end a live process at any step, and
  `stop` may escalate at any step. A process that is being created when its runner is cancelled is not
  followed further.
- Rate changes of a session's request limiter while requests wait.
- Templates, command line, logging, settings models, media inspection and TLS profiles.
