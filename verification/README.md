# MRVA commander: a verified model

MRVA commander runs one CodeQL query over many repositories. A server accepts a request, enqueues one job per
repository on a message broker, and answers status and download requests from shared state; agents take jobs off the
broker, run them, save an archive, and send a result back; a loop in the server writes results into the shared state.
This project models that system in Dafny and proves what its parts promise each other.

`dafny verify dfyconfig.toml` checks everything.

## How the model is laid out

- **The life of a job** (`LifeCycle*.dfy`). One transition system over the database tables, the bucket, the broker's
  two queues with ready and unacknowledged messages, the request handlers, the two loops that bring results home, the
  consumer, worker and publisher goroutines of any number of agents, and any number of status and download requests
  in the middle of their lookups. A step is one locked or remote call; a run is any sequence of enabled steps, so
  every theorem about runs covers every interleaving, redelivery, dropped message, lost acknowledgement, failed
  publication and crash. The server's table calls share a pool of ten database connections, and adding a job holds one
  of them while it waits for a second.
  - `LifeCycle`: states and steps. `LifeCycleSafety`: the inductive invariant. `LifeCycleTheorems`: what a client may
    rely on. `LifeCycleLedger`: conservation. `LifeCycleStaff`, `LifeCycleProgress`: bounded work, exactly when the
    work left can be finished, quiescence. `LifeCyclePool`, `LifeCycleDeadlock`: how the pool runs dry and exactly
    when a deadlock is reachable. `LifeCycleReaders`: how many lookups a request takes, and exactly when it can get to
    its end. `LifeCycleAnswers`: what a finished request answers, look by look. `LifeCycleFinality`: exactly when a Succeeded status is final. `LifeCycleExample`: a
    fault-free run in which Succeeded is overwritten by Pending. `LifeCycleCollision`: for any two jobs of a session
    that print alike, a run in which one gets the other's result.
- **The same code as methods** (`Server`, `Agent`, `RabbitQueue`, `PGState`, `LocalState`, `ArtifactStore`,
  `HepcStore`): classes with the fields of the Go types, whose loops are proved against specification functions.
  `ServerRuns`, `Agent.RoundIsARun` and `RabbitQueue.TurnIsARun` show that a method left alone does what the step
  system does.
- **The stores**: `StoreRefinement` relates the in-memory state and the tables; `SessionSummary` is the status
  aggregation both contain.
- **The in-process queue**: `SingleQueue`.
- **Codecs and tests on text**: `JobSpecToken` over `Base64`, `Utf8` and `Decimal`; `NameCodec`; `Archive` and `PathCleaning`;
  `Text`.

Choices a reader should know:

- Session k is served by the handler at position k - 1, because session ids come from a sequence that starts at 1.
- Queues are bags: a message may be taken in any order. Unacknowledged messages are a bag without an owner, so a
  message may be redelivered even while its consumer still holds it. An agent crash is a burst of goroutine deaths.
  All three allow more runs than the system has, so safety and conservation hold a fortiori.
- A connection given back may go to any call that waits for one. The Go pool serves waiters in the order they came, so
  calls already queued can doom a state in which the model still has a run that finishes. The theorems on an exhausted
  pool are not touched by that: there nobody gets a connection in any order.
- The progress theorems say that a step is enabled. A consumer that never gets through to the broker does not take
  it; `RabbitQueue.ResultsLoopStuckIff` says when that happens to the results loop, from its creation on.
- Integers are unbounded where the Go code does not itself reach the ends of their ranges; the cache duration and the
  session id of a token are modelled with their 64-bit ranges.
- The agents are other processes with connection pools of their own. Their only table call is a status write, which
  needs one connection and gives it back, so those pools cannot run dry and are not part of the state.

Where the code does not do what one might expect, the code is followed and the exact condition is proved:

- Handlers adding jobs can hold all ten connections and wait for each other for good. A deadlock is reachable exactly
  when as many handlers as there are connections may be adding a job at once (`LifeCycleDeadlock.DeadlockReachableIff`),
  and the work left in a state can be finished exactly when the pool has not run dry (`LifeCycleProgress.CanFinishIff`).
  The same holds of a status or download request, unless only the bucket is left to read (`LifeCycleReaders.CanEndIff`).
- A status is not monotone: the job is enqueued before it is marked pending, and a redelivered job starts again
  (`LifeCycleFinality.SucceededIsFinalIff`).
- The results loop keeps a dead channel as long as its connection looks open (`RabbitQueue.ResultsLoopStuckIff`), and
  meanwhile takes nothing that is delivered (`RabbitQueue.ResultsLoopTakesIff`); the jobs loop does not.
- A session id handed out by the in-memory state must not have been used before (`LocalState.NextIdKeepsAlignedIff`).
- Result keys collide for repositories of one session that print alike (`ArtifactStore.ResultKeyEqualIff`); a
  result is a job's own unless another job of its session prints alike (`LifeCycleTheorems.SucceededResolves`), and
  not in general otherwise (`LifeCycleCollision.OthersData`).
- The name parser undoes the printer only for names without the marker (`NameCodec.ParseFormedIff`).
- Bucket names collide for rows whose owners and names agree with a dollar between them
  (`NameCodec.BucketNameEqualIff`).
- The stores differ through the wrong getter, on the meaning of a repository id, and on sessions they have not seen
  (`ArtifactStore.WrongGetterAgreesIff`, `StoreRefinement.RepoIdLookupsAgreeIff`, `StoreRefinement.JobListsAgree`,
  `StoreRefinement.SummariesAgree`).
- The sniff for gzip is exact except where a line break stands in its first four characters (`Base64.SniffIff`).
- The path test accepts nothing below the root or the current directory (`Archive.AcceptsIff`), and keeps entries
  inside the destination exactly when its cleaned path does not end in a parent reference (`Archive.ContainedIff`).

## Model

| member | source | states |
|---|---|---|
| LifeCycleSafety.StepKeeps | pkg/server/server.go:33-46 | every single step of server, broker, agent or reader keeps the invariant that ties statuses, results, saved archives, job lists and half-done requests together, and shrinks no table |
| LifeCycleSafety.RunKeeps | pkg/agent/agent.go:192-224 | the invariant holds after every run from a fresh system, under any interleaving, redelivery and crash |
| LifeCycleSafety.SaveCarries | pkg/agent/agent.go:160-172 | a result leaves the worker only after its archive is in the store, and everything carried keeps its backing |
| LifeCycleSafety.RecordRecords | pkg/server/server.go:650-655 | because the result is written before the status, no Succeeded status is ever without a result |
| LifeCycleSafety.ListJobLists | pkg/server/server.go:43-45 | because the status is written before the job is listed, every listed job has a status |
| LifeCycleSafety.AnsweredHasInfo | pkg/server/server.go:694-712 | an answered session has job information for every job it lists |
| LifeCycleTheorems.SucceededResolves | pkg/server/server.go:650-655 | in every reachable state a Succeeded job has a recorded successful result whose location holds the last data saved there: the last saved for that very job, unless another submitted job of its session prints alike |
| LifeCycleTheorems.OnlyThreeStatuses | pkg/agent/agent.go:206-215 | reachable statuses are Pending, InProgress and Succeeded only, and only for submitted jobs |
| LifeCycleTheorems.PackInPlace | pkg/agent/agent.go:106-110 | a worker holding a job finds at its pack location the query pack last saved for the job's session |
| LifeCycleTheorems.PromisedNeverFails | pkg/server/server.go:279-320 | a request about an answered session, run as separate reads between all other steps, meets no failing lookup; other requests can fail only at job information, job id or download status |
| LifeCycleReaders.LooksBounded | pkg/server/server.go:172-257 | whatever comes between them, a request takes at most four lookups, and a status request four more for each job its session lists |
| LifeCycleAnswers.PromisedGetsAll | pkg/server/server.go:279-320 | in a reachable state with a connection free, a request about an answered session or a shown id gets its answer by that many lookups of its own, and a status response shows all the session lists |
| LifeCycleReaders.CanEndIff | pkg/state/state_postgres.go:91 | in a reachable state a request can be brought to its end if and only if the pool has not run dry or only the data of a download is left to read |
| LifeCycleAnswers.StatusResponseSeen | pkg/server/server.go:187-256 | a finished status response is about the session asked for; its rows are the list a lookup of the request read, in order, each with the status, the count and size (0 unless Succeeded) and the id found for its job, under the summary found |
| LifeCycleAnswers.PromisedShowsAll | pkg/server/server.go:172-236 | the response about an answered session shows each job the session lists, once; it is empty only if there is none |
| LifeCycleAnswers.DownloadSeen | pkg/server/server.go:437-463 | a finished download is about the job its id was found to stand for, and has the data found at the location of the result it read if it found the job Succeeded, and none otherwise |
| LifeCycleAnswers.OthersSeen | pkg/server/server.go:293-315 | an empty response has read an empty list, and a failed request has missed what it says |
| LifeCycleAnswers.SightsMeaning | pkg/server/server.go:187-213 | what a request has found is what one of its lookups found in the state in which it came |
| LifeCycleAnswers.AskIs | pkg/server/server.go:279-291 | a request stays the one that was asked, and is a promised one exactly by what held before it was opened |
| LifeCycleTheorems.ShownIdLeadsBack | pkg/server/server.go:349-376 | the repository id in a finished status response leads the download path back to the job it was shown for |
| LifeCycleTheorems.DownloadWasSaved | pkg/server/server.go:437-465 | data handed out for a job was saved at its result location, and for that job unless another submitted job of its session prints alike |
| LifeCycleTheorems.OverallSucceededIff | pkg/state/state_postgres.go:357-376 | in reachable states the summary says Succeeded if and only if every status of the session does |
| LifeCycleTheorems.SummaryMeansDownloadable | pkg/server/server.go:240-256 | while the summary says Succeeded, every job listed for the session has a downloadable artifact |
| LifeCycleTheorems.SucceededResponseStays | pkg/server/server.go:240-256 | once a promised status response said Succeeded, every job the session lists is downloadable from then on |
| LifeCycleTheorems.AnsweredIsClosed | pkg/server/server.go:585-600 | an answered session never lists a further job |
| LifeCycleTheorems.WrittenIsAll | pkg/state/state_postgres.go:307-323 | the status table changes by the three status writes of the code and in no other way |
| LifeCycleTheorems.Provenance | pkg/server/server.go:33-43 | every recorded result belongs to a job that some step of the run submitted |
| LifeCycleTheorems.SucceededAfterInProgress | pkg/agent/agent.go:206-215 | in any run each write of Succeeded for a job comes after a write of InProgress for it |
| LifeCycleLedger.StepBalances | pkg/queue/queue_rabbitmq.go:186-223 | every step keeps, message by message, the books of submitted, published, acknowledged, dropped, handed over, running, failed, finished, lost and recorded copies |
| LifeCycleLedger.NothingVanishes | pkg/queue/queue_rabbitmq.go:194-223 | every accepted copy is ready, unacknowledged, nacked, or was handed over; only undecodable ones are nacked |
| LifeCycleLedger.JobsConserved | pkg/queue/queue_rabbitmq.go:271-315 | copies submitted or redelivered equal copies in flight, running, dropped, failed, finished, lost in a failed publication or lost in crashes |
| LifeCycleLedger.ResultsConserved | pkg/queue/queue_rabbitmq.go:226-269 | the same balance for results, from the agent to the tables, with failed publications entered as lost |
| LifeCycleLedger.HandedOnce | pkg/agent/agent.go:202-215 | without redelivery, crashes and failed publications each accepted copy is handed over exactly once, and submitted equals in flight plus running plus failed plus finished |
| LifeCycleLedger.RecordedOnce | pkg/queue/queue_rabbitmq.go:348-349 | and each finished result is on its way or recorded exactly once |
| LifeCycleLedger.FinishedPairs | pkg/agent/agent.go:165-172 | every finished job is paired with a successful result for the same job, and each recorded result is in the table |
| LifeCycleProgress.StepDescends | pkg/server/server.go:33-46 | each job step lowers the measure of remaining work; only new requests, redeliveries and foreign messages raise it, by fixed amounts |
| LifeCycleProgress.ListingFits | pkg/server/server.go:695-701 | a session lists no more jobs than its request had repositories |
| LifeCycleProgress.JobStepsBounded | pkg/queue/queue_rabbitmq.go:177-230 | the job steps of a run are at most a fixed count per requested repository, redelivery and foreign message |
| LifeCycleProgress.NoDeadlock | pkg/agent/agent.go:192-224 | with staffed agents and none dead, a job step is enabled whenever work is left, unless every connection is held by a handler that waits for another |
| LifeCycleProgress.CanFinishIff | pkg/state/state_postgres.go:419-458 | in a reachable state with staffed, living agents the work left can be finished if and only if the pool has not run dry |
| LifeCyclePool.RunPool | pkg/state/state_postgres.go:91 | no more connections are ever in use than the pool has |
| LifeCyclePool.ExhaustedForever | pkg/state/state_postgres.go:423-455 | once all connections are held by handlers that wait for another, they are for good, and no table changes but for the statuses agents write |
| LifeCycleDeadlock.DeadlockExists | pkg/state/state_postgres.go:449 | as many single-repository requests as there are connections are enough to stop the whole server |
| LifeCycleDeadlock.DeadlockReachableIff | pkg/state/state_postgres.go:419-458 | a deadlock is reachable with at most k handlers inside the transaction at once if and only if k is at least the size of the pool |
| LifeCycleProgress.Quiescence | pkg/agent/agent.go:209-215 | when nothing can move after a run without redelivery, crashes and failed publications, every submitted copy failed or finished, what finished is recorded one for one, and no request is half done, if and only if the pool has not run dry |
| LifeCycleStaff.RunKeepsStaff | pkg/queue/queue_rabbitmq.go:104-116 | goroutines keep their role and agent, and only do what the role says |
| LifeCycleFinality.SettledIsFinal | pkg/server/server.go:43-45 | once the handler is past a job and no copy of it can reach a worker, Succeeded stays in every further run |
| LifeCycleFinality.UnsettledLeaves | pkg/agent/agent.go:208 | in every other state some further run takes the status away from Succeeded |
| LifeCycleFinality.SucceededIsFinalIff | pkg/server/server.go:43-45 | hence Succeeded is final exactly under that condition, which takes into account that an exhausted pool stops every handler but one about to send |
| LifeCycleExample.SucceededOverwritten | pkg/server/server.go:43-44 | a concrete run without any fault in which Succeeded is followed by Pending |
| LifeCycleCollision.OthersData | pkg/artifactstore/store_minio.go:66-69 | for any two different jobs of one session that print alike, a fault-free run in which one is Succeeded and its location holds the other's data |
| Server.Commander.StartAnalyses | pkg/server/server.go:25-47 | the loop sends each job and leaves the tables as marking, numbering and listing them in order does |
| Server.StartedAt | pkg/server/server.go:33-46 | afterwards every submitted key is pending, numbered, and listed by the first row for it; nothing else changed |
| Server.FirstForMeaning | pkg/state/state_postgres.go:438-442 | the listed row is the first one submitted for its key |
| Server.Commander.ConsumeResults | pkg/server/server.go:648-656 | the loop writes result and status of each received result in order |
| Server.RecordedAt | pkg/server/server.go:648-656 | for each job the last result received is kept, under the status it carries; other jobs keep theirs |
| Server.Commander.BuildSessionInfo | pkg/server/server.go:694-712 | the request's information is stored for exactly the jobs listed for its session |
| Server.Commander.MRVARequest | pkg/server/server.go:565-609 | a bad request only uses up a session id; a good one saves its pack, submits the repositories found, and stores the information with the names of the missing ones |
| Server.PackOfIff | pkg/server/server.go:750-762 | a text is a query pack exactly when it decodes to gzip data and its first four characters have no line break |
| Server.PackOfEncoded | pkg/server/server.go:801-806 | a standard encoding is taken for a pack exactly when its data is gzip, and then for that data |
| Server.Commander.SubmitStatusResponse | pkg/server/server.go:172-257 | the response has one row per listed job in list order with status, count, size and id; it fails exactly when some listed job cannot be shown |
| Server.Commander.MRVAStatus | pkg/server/server.go:293-318 | an empty session is answered as empty; the request fails exactly when the first listed job lacks information or some listed job cannot be shown, and otherwise shows every listed job under the information of the first |
| Server.Commander.SendArtifactDownloadResponse | pkg/server/server.go:437-523 | the method answers as specified; ServerRuns.AnnouncedExactly says what that is in reachable states |
| Server.Commander.MRVADownloadServe | pkg/server/server.go:532-563 | the method answers as specified; ServerRuns.ServedIsLastSaved says what that is for a job with a result |
| ServerRuns.SubmissionIsARun | pkg/server/server.go:33-46 | the submission loop, left alone with two connections free, is a run of the step system with the same tables and queue |
| ServerRuns.RecordingIsARun | pkg/server/server.go:650-655 | so is one round of the results loop |
| ServerRuns.AnsweredCanBeAnswered | pkg/server/server.go:172-245 | in every reachable state an answered session meets the condition under which a status request does not fail |
| ServerRuns.ShownRowIsSeen | pkg/server/server.go:187-236 | the row a handler shows when left alone is the one that separate lookups in that state make up |
| ServerRuns.AnnouncedExactly | pkg/server/server.go:443-496 | in reachable states a download request never misses the result or the data: it is ready exactly for Succeeded jobs, tells count, commit and prefix of the recorded result, and its token decodes to the job and serves data of the size told; otherwise it tells the status or that there is none |
| ServerRuns.ServedIsLastSaved | pkg/server/server.go:532-563 | in reachable states the token of a job with a result leads to the last data saved at its location, for that very job unless another prints alike |
| ServerRuns.LinkNeverDangles | pkg/server/server.go:465-563 | the token of a link handed out by a download request names the job, whatever came between the request's reads, and finds the result and the last data saved for it when it is followed later, whatever comes between those reads |
| Agent.RunnerAgent.RunAnalysisJob | pkg/agent/agent.go:90-175 | success saves the archive and returns a result pointing to it; every failure leaves the store alone; Agent.PassedJobSends and FailedJobSendsNone say which is which |
| Agent.RunnerAgent.RunWorker | pkg/agent/agent.go:178-225 | the loop writes InProgress for each job and sends results for the successful ones only |
| Agent.RoundsSend | pkg/agent/agent.go:206-215 | every result sent has its archive in the store, and every job taken is in progress, failed or not |
| Agent.PassedJobSends | pkg/agent/agent.go:142-175 | a job with its pack in the bucket and no failing stage sends one result, whatever its count, with the run's count, prefix and commit, and its archive is the data at its location |
| Agent.FailedJobSendsNone | pkg/agent/agent.go:209-213 | a job without its pack or with a failing stage sends nothing and saves nothing |
| Agent.RoundsSendExactly | pkg/agent/agent.go:192-224 | over any work list the results sent are one for each job that passes, in order, and none for any other |
| Agent.PacksStay | pkg/agent/agent.go:160-163 | no archive is saved over a pack, so packs stay as they were over any work list |
| Agent.RoundIsARun | pkg/agent/agent.go:206-215 | one round, left alone, is a run of the step system |
| RabbitQueue.RabbitMQQueue.ReconnectIfNeeded | pkg/queue/queue_rabbitmq.go:134-160 | keeps a connection that looks valid, otherwise replaces both parts or neither |
| RabbitQueue.RabbitMQQueue.InvalidateConnection | pkg/queue/queue_rabbitmq.go:162-175 | drops connection and channel and nothing else |
| RabbitQueue.RabbitMQQueue.ConsumeJobs | pkg/queue/queue_rabbitmq.go:177-224 | the loop over any script of network events does the specified turns |
| RabbitQueue.RabbitMQQueue.ConsumeResults | pkg/queue/queue_rabbitmq.go:317-352 | the same for the results loop, which keeps its connection after a failed poll |
| RabbitQueue.TurnsAccount | pkg/queue/queue_rabbitmq.go:208-222 | each message taken is handed over once, in order, or nacked if it does not decode; only what was handed over is acknowledged |
| RabbitQueue.JobsLoopRecovers | pkg/queue/queue_rabbitmq.go:188-200 | after any turns the jobs loop takes what the next turn delivers, if a dial works |
| RabbitQueue.QuietLoopTakesAll | pkg/queue/queue_rabbitmq.go:188-222 | a loop that starts open and is left alone stays open without dialling and takes every message delivered, in order |
| RabbitQueue.ResultsLoopStaysStuck | pkg/queue/queue_rabbitmq.go:323-334 | on a closed channel the results loop takes nothing while its connection lasts |
| RabbitQueue.ResultsLoopStuckIff | pkg/queue/queue_rabbitmq.go:323-334 | from any start and for every script of network events, the results loop is stuck exactly when a channel was closed under an open connection that has lasted since |
| RabbitQueue.ResultsLoopTakesIff | pkg/queue/queue_rabbitmq.go:331-349 | after any such script the loop takes what a quiet turn delivers exactly when that is not so |
| RabbitQueue.StartedLoopSticks | pkg/queue/queue_rabbitmq.go:96-103 | started as the queue is created, the loop is stuck after any script that closes a channel and no connection |
| RabbitQueue.TurnIsARun | pkg/queue/queue_rabbitmq.go:188-222 | a turn of the jobs loop, with its reconnection and poll, is a run of the step system: nothing without a message, otherwise the same message taken and the same jobs handed over, acknowledged and dropped |
| SingleQueue.WorkerCount | pkg/agent/agent.go:63-70 | there is always at least one worker |
| SingleQueue.StepOrderly | pkg/queue/queue_single.go:9-16 | neither channel exceeds ten elements and both hand out in the order they were filled |
| SingleQueue.StepConserves | pkg/queue/queue_single.go:18-24 | no step loses or repeats a job |
| SingleQueue.StepDescends | pkg/agent/agent.go:192-224 | every step is progress |
| SingleQueue.NoDeadlock | pkg/queue/queue_single.go:9-24 | with a worker, some step is enabled while anything is unsubmitted, queued, running or unrecorded |
| SingleQueue.RunsEndDone | pkg/server/server.go:33-46 | every run is bounded, and one that cannot go on has each requested job failed or passed on exactly once and the passed results recorded in order |
| LocalState.ApplyKeeps | pkg/state/state_local.go:162-177 | each operation keeps the index of every session aligned with its job list, and AddJob does not panic |
| LocalState.RunKeeps | pkg/state/state_local.go:22-42 | so does every history that adds jobs only to issued sessions |
| LocalState.NoPanicNoLoss | pkg/state/state_local.go:162-177 | in such a history the length panic is unreachable and no listed job is ever lost |
| LocalState.NextIdFresh | pkg/state/state_local.go:36-42 | no id is issued twice, and a new id lists no job |
| LocalState.NextIdKeepsAlignedIff | pkg/state/state_local.go:36-42 | NextID keeps the alignment exactly when the index of the new id is empty |
| LocalState.FutureSessionPanics | pkg/state/state_local.go:170-176 | a job filed under an id not yet issued is lost and the next AddJob panics |
| LocalState.RepoIdIsPosition | pkg/state/state_local.go:53-65 | the repository id of the download path is the position in the job list |
| LocalState.LocalState.AddJob | pkg/state/state_local.go:162-177 | appends the job and indexes its spec, and reports the panic when the lengths differ |
| LocalState.LocalState.NextID | pkg/state/state_local.go:36-42 | the new id and its emptied job list |
| LocalState.LocalState.GetJobSpecByRepoId | pkg/state/state_local.go:53-65 | the spec at a position, or an error |
| LocalState.LocalState.GetSessionStatus | pkg/state/state_local.go:106-154 | an error without statuses, otherwise the summary of the session's statuses |
| SessionSummary.CountStatuses | pkg/state/state_local.go:106-126 | in whatever order the map is walked, the counts are those of the session's statuses |
| SessionSummary.CountRows | pkg/state/state_postgres.go:338-355 | the same for the rows of the query |
| SessionSummary.CountsDetermined | pkg/state/state_local.go:110-126 | the counts do not depend on the order |
| SessionSummary.CountsSumToTotal | pkg/state/state_local.go:110-126 | the counts add up to the total |
| SessionSummary.OverallMeaning | pkg/state/state_local.go:132-153 | what each outcome of the switch means; Pending exactly when some job is Pending or InProgress; the default branch is dead |
| PGState.RepoIdsStable | pkg/state/state_postgres.go:399-417 | under any interleaving of upserts and job inserts, ids stay an injection and never change |
| PGState.RepoIdRoundTrip | pkg/state/state_postgres.go:497-516 | the id given for a pair leads back to it in every later state |
| PGState.OrderedUnique | pkg/state/state_postgres.go:463-467 | the ordered job list of a session is unique |
| PGState.PGState.AddJob | pkg/state/state_postgres.go:419-458 | a do-nothing insert that numbers the repository either way |
| PGState.PGState.GetRepoId | pkg/state/state_postgres.go:399-417 | the id of the pair, new or old, with a sequence value used up in both cases |
| PGState.PGState.SetResult | pkg/state/state_postgres.go:221-243 | an upsert that rewrites the spec to the key |
| PGState.PGState.GetJobList | pkg/state/state_postgres.go:460-495 | the session's jobs, each once, by owner and repository |
| PGState.PGState.GetSessionStatus | pkg/state/state_postgres.go:325-379 | the summary of the session's statuses, Succeeded when there are none |
| PGState.PGState.GetJobSpecByRepoId | pkg/state/state_postgres.go:497-516 | the pair with this id, in the session asked for |
| StoreRefinement.StoresAgree | pkg/state/state_postgres.go:207-495 | after any history that adds jobs only to issued sessions the two stores agree |
| StoreRefinement.ResultsAgreeIff | pkg/state/state_postgres.go:221-243 | their results are equal exactly when each carries its own key |
| StoreRefinement.JobListsAgree | pkg/state/state_local.go:73-80 | after any well-issued history the in-memory list is an error exactly for sessions neither issued nor added to, where the database lists nothing; otherwise the database list is the in-memory list without later duplicates, ordered |
| StoreRefinement.SummariesAgree | pkg/state/state_local.go:106-154 | after any well-issued history the in-memory summary is an error exactly for sessions no status was written for, where the database says Succeeded, and otherwise the two summaries are equal |
| StoreRefinement.RepoIdLookupsAgreeIff | pkg/state/state_local.go:53-65 | after any well-issued history the stores read an id alike exactly when the job at that list position has it as its row id, or when it is neither a position nor a row id |
| StoreRefinement.FirstPositionDiffers | pkg/state/state_postgres.go:497-516 | id 0 never means the same on a session that lists anything |
| StoreRefinement.RepoIdIsPositionPlusOne | pkg/state/state_postgres.go:399-417 | in a fresh history of one session without repeats the database's id is the list position plus one |
| StoreRefinement.PositionsNeverAgree | pkg/state/state_local.go:53-65 | there the same id names different jobs at every position |
| ArtifactStore.PackKeyInjective | pkg/artifactstore/store_memory.go:42-49 | pack keys are injective in the session |
| ArtifactStore.PackKeyNeverResultKey | pkg/artifactstore/common.go:5-8 | pack keys and result keys never meet in the shared bucket |
| ArtifactStore.ResultKeyEqualIff | pkg/artifactstore/store_memory.go:83-90 | result keys are equal exactly when the sessions are and the repositories print alike |
| ArtifactStore.ResultKeyInjective | pkg/artifactstore/store_memory.go:83-90 | for space-free owners the key determines the job |
| ArtifactStore.SpacesCollide | pkg/artifactstore/store_memory.go:83-90 | with spaces two different jobs share a key |
| ArtifactStore.BucketKeepsLast | pkg/artifactstore/store_minio.go:89-109 | the bucket holds the last data saved at each location |
| ArtifactStore.MatchingGettersAgree | pkg/artifactstore/store_minio.go:38-69 | through the matching getter the bucket and the in-memory maps return the same |
| ArtifactStore.ResultIsOwn | pkg/artifactstore/store_minio.go:66-69 | for space-free owners a result location resolves to the last data saved for its own job |
| ArtifactStore.MapsStayApart | pkg/artifactstore/store_memory.go:38-50 | after any saves the map of packs holds no result key and the map of results no pack key |
| ArtifactStore.WrongGetterAgreesIff | pkg/artifactstore/store_memory.go:25-36 | after any saves the wrong getter agrees with the bucket exactly when nothing was saved at the location |
| ArtifactStore.InMemoryArtifactStore.SaveResult | pkg/artifactstore/store_memory.go:79-91 | stores under the printed key and returns its location |
| ArtifactStore.MinIOArtifactStore.SaveArtifact | pkg/artifactstore/store_minio.go:89-109 | one object is replaced, the others stay |
| HepcStore.FreshIndex | pkg/qldbstore/qldbstore_hepc.go:279-293 | a call that gets an index gets that of the latest successful fetch, stamped at most the duration before |
| HepcStore.CacheIsUsedIff | pkg/qldbstore/qldbstore_hepc.go:279-293 | up to the cache duration after the stamp of the last successful fetch a call uses that index and leaves the cache alone, whatever its fetch would bring; a later call fetches |
| HepcStore.FirstCallsFetch | pkg/qldbstore/qldbstore_hepc.go:279-293 | before the first successful fetch every call fetches |
| HepcStore.FailureRetries | pkg/qldbstore/qldbstore_hepc.go:281-288 | a failed refresh changes nothing and the next call fetches again |
| HepcStore.CacheDurationBelowMax | pkg/qldbstore/qldbstore_hepc.go:53-74 | the configured duration, wrapped to 64 bits, is always below the age of the zero time |
| HepcStore.CacheDurationExact | pkg/qldbstore/qldbstore_hepc.go:53-74 | a duration that fits is the configured number of minutes, or an hour without one |
| HepcStore.PartitionMeaning | pkg/qldbstore/qldbstore_hepc.go:295-310 | found and not found split the request position by position, in order |
| HepcStore.FirstUrlMeaning | pkg/qldbstore/qldbstore_hepc.go:405-419 | the lookup returns the URL of the first matching record |
| HepcStore.LookupAgreesWithQuery | pkg/qldbstore/qldbstore_hepc.go:405-424 | on one index the lookup finds a URL exactly for found repositories whose first record has one |
| HepcStore.EntryRoundTrip | pkg/server/server.go:770-779 | an entry with one slash is split into the repository whose key is the entry |
| HepcStore.HepcStore.FindAvailableDBs | pkg/qldbstore/qldbstore_hepc.go:253-311 | refreshes an expired cache and partitions the request by the index, or reports all missing when the fetch fails |
| HepcStore.HepcStore.LocateDatabase | pkg/qldbstore/qldbstore_hepc.go:391-424 | refreshes the same way and returns the first URL |
| NameCodec.ParseFormedIff | client/qldbtools/bin/mc-rows-from-mrva-list:51-55 | the parser undoes the printer exactly for slash-free names without the marker |
| NameCodec.RequestNameInjective | client/qldbtools/qldbtools/utils.py:192-200 | for owners without a slash the request name determines the row, even where names contain the marker |
| NameCodec.BucketNameEqualIff | client/qldbtools/qldbtools/utils.py:182-190 | two bucket names are equal exactly when the digests are and owner and name agree with a dollar between them |
| NameCodec.BucketNameInjective | client/qldbtools/qldbtools/utils.py:182-190 | so for owners without a dollar the bucket name determines the row |
| NameCodec.DollarsCollide | client/qldbtools/qldbtools/utils.py:182-190 | wherever an owner has a dollar, the part behind it can be shifted into the name without changing the bucket name |
| NameCodec.ParseList | client/qldbtools/bin/mc-rows-from-mrva-list:50-55 | parses all items or stops at one that cannot be split |
| NameCodec.SelectRows | client/qldbtools/bin/mc-rows-from-mrva-list:61-64 | selects the table rows the list names, in table order and as often as they stand there, or nothing when an item cannot be split |
| NameCodec.FormedListSelects | client/qldbtools/bin/mc-rows-from-mrva-list:61-64 | a printed list selects exactly the rows it was printed from |
| JobSpecToken.MarshalRoundTrip | pkg/common/jobspec.go:10-24 | the JSON text of a job spec reads back as that spec, whatever characters it contains |
| JobSpecToken.MarshalPlain | pkg/common/jobspec.go:10-13 | names without a character to escape stand in the JSON text as they are, under the field names |
| JobSpecToken.MarshalSafe | pkg/common/jobspec.go:10-13 | the JSON text has no control character, no HTML character and no JavaScript line separator |
| JobSpecToken.TokenRoundTrip | pkg/common/jobspec.go:8-29 | decoding undoes encoding |
| JobSpecToken.TokenIsPathSegment | pkg/server/server.go:465-482 | a token is one URL path segment |
| Utf8.RoundTrip | pkg/common/jobspec.go:10-24 | UTF-8 decoding undoes encoding |
| Utf8.CharMeaning | pkg/common/jobspec.go:10-13 | the bytes of a character stand for its number by the table of RFC 3629, and are as few as can be |
| Base64.RoundTrip | pkg/common/jobspec.go:14-19 | decoding undoes encoding, in both alphabets |
| Base64.SymbolMeaning | pkg/common/jobspec.go:14 | the symbols are those of tables 1 and 2 of RFC 4648 |
| Base64.GroupMeaning | pkg/common/jobspec.go:14 | four symbols spell the same number as the bytes they stand for, with padding for the missing ones |
| Base64.SniffIff | utils/archive.go:134-153 | on any text that decodes, the sniff is true exactly for gzip data whose first four characters have no line break |
| Base64.SniffEncoded | utils/archive.go:134-153 | on encodings it is exact |
| Archive.CleanIdempotent | utils/archive.go:97-102 | cleaning a cleaned path changes nothing |
| PathCleaning.CleanUndoes | utils/archive.go:97-102 | a named part followed by a parent reference cleans to nothing |
| PathCleaning.CleanSkips | utils/archive.go:97-102 | so do an empty part and a reference to the directory itself |
| PathCleaning.CleanDescends | utils/archive.go:97-102 | a named part is appended to the cleaned text |
| PathCleaning.CleanClimbs | utils/archive.go:97-102 | the root is its own parent; where nothing is left to leave, parent references pile up |
| PathCleaning.CleanStarts | utils/archive.go:97-102 | the cleaned texts of paths of at most one part |
| PathCleaning.CleanCongruent | utils/archive.go:97-102 | what follows a path depends on its cleaned text alone |
| PathCleaning.EndsAboveIff | utils/archive.go:28-31 | a path ends above exactly when its cleaned text is, or ends in, a parent reference |
| Archive.RenderRoundTrip | utils/archive.go:97-102 | a cleaned path is determined by its components |
| Archive.PrefixTestIff | utils/archive.go:28-31 | on cleaned paths the textual test holds exactly when the destination's components are a strict prefix |
| Archive.AcceptsIff | utils/archive.go:97-102 | an entry passes exactly when walking its name from the destination gives a path that starts with the destination's components and goes on, by a name or by a parent reference |
| PathCleaning.PlainAcceptedIff | utils/archive.go:97-102 | a plain name is accepted exactly when the destination is not the root or the current directory, and lands right below it |
| PathCleaning.LeavingIsRefused | utils/archive.go:97-102 | a parent reference and a name are refused below every destination that does not end in a parent reference |
| PathCleaning.PlainParent | utils/archive.go:111-113 | the directory made for a plain file is the destination |
| Archive.ClimbingEscapes | utils/archive.go:97-102 | a destination that ends in a parent reference accepts a name that leaves it |
| Archive.ContainedIff | utils/archive.go:28-31 | every accepted entry stays inside the destination exactly when its cleaned path does not end in a parent reference |
| Archive.Extract | utils/archive.go:85-128 | the loop stops at the first refused entry and has written what the accepted ones say, nothing of it outside a destination whose cleaned path does not end in a parent reference |
| Archive.WrittenLast | utils/archive.go:115-124 | each path holds what the last entry for it brings |
| Archive.WrittenOnly | utils/archive.go:115-124 | no path is written that no entry is for |
| Archive.DirectoriesHave | utils/archive.go:103-113 | the directory of every accepted entry is made, and that of every accepted file |

## Left out

- HTTP routing, JSON assembly of responses, logging, configuration, TLS and containers: plumbing without state.
- Errors of the database, the object store and HTTP, and the size limit of the object store: the stores answer or the entry is missing.
- 32-bit limits of database integers and sequences, and characters a database text column refuses.
- The database collation: any total order on owner and repository.
- Message encoding between server and agents: a message carries its value or does not decode; foreign messages that decode are not modelled.
- Broker restarts: queues are not durable, and a restart loses what they hold.
- The wait for a publication's confirmation: a publication succeeds or its message is lost.
- A crash of the server: its handlers, inbox and recorder only move on.
- Order within the broker's queues: the life cycle takes messages in any order.
- Cancellation, stop channels, poll intervals and retry delays.
- The analysis itself: a parameter that fails or yields an archive, a count and the two strings of the result.
- Download, decoding and unpacking of the database inside GetDatabase after the URL is found.
- Repository entries without exactly one slash: the handler reports them but goes on.
- The counts of skipped repositories: one count is reused for all categories; the model keeps the names.
- JobSpecToken.DecodeJobSpec: does not model JSON values other than strings and integers, invalid UTF-8, or field names that fold outside ASCII, because tokens made by the encoder contain none.
- Archive.Extract: does not model file system errors and links, because the test on names comes before any of them.
- Row locks: only the handler of a session inserts its rows, so its transactions never wait for each other's rows.
- LifeCycleProgress.NoDeadlock: says that a step is enabled, not that a scheduler takes it, because the code relies on the runtime's scheduler for that.
- The pandas pipeline, the hash behind the name suffix, and the CodeQL command line: library behaviour.
