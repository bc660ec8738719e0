# A verified model of the photo service

The service takes photo-organising and story requests from Kafka, keeps them in one Redis
instance shared by all replicas, runs them, and sends each result back through Kafka. This
project models the parts whose correctness spans several structures or several processes,
and proves what they keep.

**The job store** (`JobModel`, `JobInvariant`, `JobPreservation`, `JobRuns`, `JobGuarantees`,
`JobEffects`, `JobStore`). One logical job lives in many keys at once: its record, the queue of its
kind, an execution slot, the `running` deadline index, the `pending` outbox, `latest`, `ignored`,
the staged photo batches, the batch queue and the counters. A transaction is a `Plan` (everything
between WATCH and EXEC: a reply, and the commands queued) and `Apply` (EXEC). `Act` is one atomic
step by anyone: a transaction, the clock, a key expiring, or ZPOPMIN on the batch queue. `Inv` ties
every index to the records; every step keeps it, so it holds in every reachable state, and the
guarantees are statements about all runs. `JobEffects` says of each transaction, in terms of records
and indexes alone, exactly when it goes through and what it writes. The class `RedisJobStore` runs
the same transactions on fields it updates in place; its loops over slots, buckets, batches and
overdue jobs are proved against `Act`, and its methods keep the same laws.

**Optimistic locking** (`Optimistic`). Any number of clients watch keys, read them one at a time
while others commit, ask for the time and send EXEC, which Redis refuses if a watched key was
modified. Two stores that agree on the watched keys lead to the same plan, so every such
interleaving is a run of atomic steps, and every run whose transactions read the current clock is
such an interleaving. The clock a client read may be old; it is never older than the last write to
the record it decides about, and that is all the atomic model assumes of it (`Timely`).

**Kafka** (`Publishing`, `Intake`). Publishers that may stop, lose a confirmation or be taken over,
against a broker log that a message may reach long after its publisher gave up; consumers of one
partition that may be reassigned at any point, against the committed offset.

**The GPU gate** (`Gate`). A semaphore over one sorted set with leases, with clients that lose
responses, are late, never release, or whose EXEC arrives after their release. Tokens never exceed
the limit. Calls do unless clients are quick: if every call starts less than some delay after its
claim, at most the limit run at once in every history exactly when that delay is at most five
seconds, the part of the lease that neither the timeout nor its grace uses up.

**Organising photos** (`Photos`, `Merging`, `Numbering`, `TripPlaces`, `AgentRuns`, `Agent`,
`Assigning`, `Filtering`, `Finalizing`, `Pipeline`). The list of photos is an array whose entries
the steps update in place. The rules place photos until nothing changes; the agent places more,
merges folders and renumbers them; filtering judges blur and duplicates per folder; folders with
nothing to show are released; finalizing checks everything and partitions the photos. The language
model is an arbitrary function of what it is shown; `AgentRuns` says what is kept of its answers
and what each node of the graph does with them, so that a run of the agent is a path through the
graph. The similarity of embeddings and the distance of perceptual hashes are arbitrary functions.
The steps compose: what the rules hand over is what the agent requires (`Grounded`), what the agent
hands over (`PhotoOk`) is what filtering accepts once times are decided and photos measured, and
after filtering and releasing the only obstacle to a result is a folder of blurry photos with GPS.
`Pipeline.Organise` runs them in order and proves the chain from end to end: the final photos are
those the rules settled, the agent placed and filtering judged, and there is a result exactly when
no folder with GPS photos was too blurry when it reached filtering.

**Stories and the place index** (`Sorting`, `Story`, `PlaceSearch`, `PlaceBuild`). Largest-remainder
allocation with a greedy choice per place, and a three-tier name search proved equal to the ranked
list a scan of all places would give, over tables built from the raw sources.

`Wrappers`, `Sets` and `Texts` hold what several modules share: options and outcomes, cardinality
of sets, and the order of strings.

Integers stand for times in a fixed unit (the gate counts in real seconds), `real` for coordinates,
scores and thresholds. An execution is identified by kind, trip and execution ID; its hash is taken
as injective, and owner tokens drawn by `claim` as never repeating. `hide` statements in proofs only
keep definitions away from the solver.

## Model

| member | source | states |
|---|---|---|
| JobStore.RedisJobStore.Register | app/jobs/redis_store.py:160-222 | Duplicate exactly for an identity accepted or ignored before, busy exactly while an execution of the trip and kind is queued or running, else accepted; the new record, its place in queue or outbox and every other key as `RegisterLaw` says |
| JobStore.RedisJobStore.Claim | app/jobs/redis_store.py:303-370 | Scanning the slots and the queue starts the first registered queued job in the first free slot exactly when one more of its kind may run, as `ClaimLaw` says |
| JobStore.RedisJobStore.ScanSlots | app/jobs/redis_store.py:312-333 | The loop over a kind's slots finds how many are taken, the first free one and those whose owner has ended |
| JobStore.RedisJobStore.First | app/jobs/redis_store.py:334-337 | ZRANGE 0 0: an identity with the smallest score |
| JobStore.RedisJobStore.Change | app/jobs/redis_store.py:372-429 | One conditional update of a record and its re-indexing: ended, running or returned; reply and whole new state |
| JobStore.RedisJobStore.ReleaseSlots | app/jobs/redis_store.py:405-407 | Exactly the slots held by the identity are freed |
| JobStore.RedisJobStore.Heartbeat | app/jobs/redis_store.py:454-461 | Succeeds exactly for the owner of the running record within lease and time limit, and moves the heartbeat to now and the deadline to the earlier of the new lease and the time limit, nothing else |
| JobStore.RedisJobStore.Progress | app/jobs/redis_store.py:463-486 | Refused exactly without the lease or after a cancel request; a step of the kind with the known total and a count within it is saved and nothing else, any other raises |
| JobStore.RedisJobStore.ReturnUnstarted | app/jobs/redis_store.py:431-444 | Refused exactly without the lease; else queued again under its old score without owner, slot and deadline, or ended as CANCELED when a cancel request came in between |
| JobStore.RedisJobStore.Finish | app/jobs/redis_store.py:508-525 | Refused exactly without the lease; else the record ends with the reported event or its small substitute, or as CANCELED after a cancel request, leaves every index and is posted; a report against the contract raises and changes nothing |
| JobStore.RedisJobStore.Cancel | app/jobs/redis_store.py:527-541 | Cancels the execution `latest` names: a queued one ends as CANCELED, a running one is marked and otherwise kept, an ended one raises; without one nothing changes |
| JobStore.RedisJobStore.Overdue | app/jobs/redis_store.py:568-572 | At most 100 identities whose deadline has passed, and all of them when there are fewer |
| JobStore.RedisJobStore.Recover | app/jobs/redis_store.py:568-587 | An uninterrupted pass leaves no overdue running record, fails each overdue one as TIMEOUT or WORKER_DEAD and writes no other |
| JobStore.ScanIsComplete | app/jobs/redis_store.py:570-572 | The 100-row scan misses nothing, because few enough jobs can run |
| JobStore.RedisJobStore.Pending | app/jobs/redis_store.py:620-623 | At most 100 due results, all of ended jobs, and all due ones when there are fewer |
| JobStore.RedisJobStore.ClaimResult | app/jobs/redis_store.py:589-597 | A publisher gets the record exactly when it has ended, is unpublished and no publish lease runs; the lease starts and the outbox waits for it, nothing else changes |
| JobStore.RedisJobStore.Acknowledge | app/jobs/redis_store.py:599-618 | Exactly for the current publisher the result is marked published and leaves the outbox; else nothing changes |
| JobStore.RedisJobStore.StagePhotos | app/jobs/redis_store.py:83-143 | The reply of each case; a batch is staged exactly when the execution is open, topic and keys agree, the number is new and the bounds of 200 photos, 200 batches and 2 MiB hold; then it is in the buffer for one TTL and queued, and only entries older than a TTL go |
| JobStore.RedisJobStore.DecideStaging | app/jobs/redis_store.py:100-131 | The checks of a batch in their order: closed, topic, repeated number, changed storage key, the bounds of 200 and the size |
| JobStore.RedisJobStore.Merge | app/jobs/redis_store.py:116-126 | The loops over staged photos detect exactly a changed storage key and count the distinct photos |
| JobStore.RedisJobStore.ClaimBatch | app/jobs/redis_store.py:243-256 | Returns the earliest queued batch whose buffer is live, really in that buffer; everything dropped on the way was dead |
| JobStore.RedisJobStore.ObserveCommands | app/observability/metrics.py:65-72 | The bucket loop adds one observation to count, sum and exactly the buckets it fits |
| JobStore.RedisJobStore.TerminalCommands | app/observability/metrics.py:75-82 | The three durations of an ended job are observed |
| JobPreservation.InitInv | app/jobs/redis_store.py:53-57 | An empty Redis satisfies the invariant |
| JobPreservation.UpdatedIsLegal | app/jobs/redis_store.py:431-597 | Every update closure moves a well-formed record along a legal status change to a well-formed record |
| JobPreservation.ChangeKeepsInv | app/jobs/redis_store.py:372-429 | Every update transaction keeps all indexes consistent with the records |
| JobPreservation.AcceptKeepsInv | app/jobs/redis_store.py:198-220 | Accepting a request keeps the invariant |
| JobPreservation.IgnoreKeepsInv | app/jobs/redis_store.py:188-197 | Ignoring a request behind a live execution keeps the invariant |
| JobPreservation.FreeSlotExists | app/jobs/redis_store.py:331-333 | Below the limit the search for a free slot succeeds, inside the limit |
| JobPreservation.NoStaleSlots | app/jobs/redis_store.py:316-330 | The clean-up of slots of ended jobs has nothing to do in states this code builds |
| JobPreservation.HeadIsQueued | app/jobs/redis_store.py:338-346 | The head of a queue is always a QUEUED record of that kind |
| JobPreservation.ClaimKeepsInv | app/jobs/redis_store.py:303-370 | Claiming keeps the invariant |
| JobPreservation.StageKeepsInv | app/jobs/redis_store.py:83-143 | Staging keeps the invariant, including that queued batches match their buffers after trimming |
| JobPreservation.ExpireKeepsInv | app/jobs/redis_store.py:134-139 | A buffer expiring keeps the invariant |
| JobPreservation.PopKeepsInv | app/jobs/redis_store.py:250-256 | Taking the earliest batch keeps the invariant |
| JobPreservation.AcknowledgeKeepsInv | app/jobs/redis_store.py:599-618 | Acknowledging keeps the invariant |
| JobPreservation.ActKeepsInv | app/jobs/redis_store.py:83-618 | Every step by anyone keeps the invariant |
| JobRuns.ReachableInv | app/jobs/redis_store.py:1-4 | The invariant holds in every state reachable from an empty Redis |
| JobRuns.StatusDecidesIndexes | app/jobs/redis_store.py:347-424 | QUEUED iff in the queue of its kind and no other, PROCESSING iff in `running` and in exactly one slot, of its kind, terminal iff it has its event, pending iff terminal and unpublished |
| JobRuns.SlotsMatchRunning | app/jobs/redis_store.py:74-81 | Occupied slots and running records of a kind are equally many and within its limit |
| JobRuns.ConcurrencyBounded | app/jobs/config.py:51-52 | At most one process job and at most the configured number, never over four, of story jobs run |
| JobRuns.RunningBound | app/jobs/redis_store.py:570-572 | At most five jobs run, far below the 100 rows of a recovery scan |
| JobRuns.LeaseIsFenced | app/jobs/redis_store.py:446-452 | At any time the owner of a running record may write exactly when recovery may not fail it, and the `running` score is that moment |
| JobRuns.RunGrows | app/jobs/redis_store.py:372-429 | Over any run records are never lost, only evolve legally, and registration numbers never change |
| JobGuarantees.OneLivePerTrip | app/jobs/redis_store.py:181-197 | Two live executions of one trip and kind are the same, and `latest` names it |
| JobGuarantees.ClosedForever | app/jobs/redis_store.py:171-194 | An accepted or ignored identity stays so in every continuation and is never both |
| JobGuarantees.ReplayChangesNothing | app/jobs/kafka.py:231-234 | Delivering settled messages again, in any number and order, changes nothing |
| JobGuarantees.ResultsAreFinal | app/jobs/redis_store.py:389-411 | A terminal status and its event never change, and the record stays published or pending |
| JobGuarantees.CancellationPrevails | app/jobs/redis_store.py:437-520 | After a committed cancel request no continuation completes or requeues the job or accepts progress |
| JobGuarantees.CancelMarks | app/jobs/redis_store.py:530-536 | A cancel request ends a queued job and marks a running one |
| JobGuarantees.CountsMatch | app/observability/metrics.py:65-82 | The total count of a kind and outcome equals the number of such records; the last bucket equals the count and buckets never decrease |
| JobGuarantees.LiveBufferIsOpen | app/jobs/redis_store.py:98-131 | A live photo buffer belongs to an execution neither registered nor ignored, names each photo by one key and is within 200 and 200 |
| JobGuarantees.QueuedBatchIsStaged | app/jobs/redis_store.py:132-139 | A queued batch whose buffer is live is in it, even if the buffer expired and was made again |
| JobGuarantees.ClaimsInOrder | app/jobs/redis_store.py:199-211 | Every claim takes the queued job of its kind with the smallest registration number |
| JobGuarantees.ReturnRegainsPlace | app/jobs/redis_store.py:431-444 | A returned job keeps its registration number, ahead of everything registered later, in every continuation |
| JobGuarantees.ReturnUndoesClaim | app/jobs/redis_store.py:365-424 | Claiming and returning at once restores every key |
| JobGuarantees.StaleRunnerStaysOut | app/jobs/redis_store.py:446-452 | A runner that lost its job can never write any record again |
| JobGuarantees.PublishClaimsApart | app/jobs/redis_store.py:590-595 | Two publish claims on one record are at least one publish lease apart |
| JobGuarantees.TakeoverBlocksAcknowledge | app/jobs/redis_store.py:609-610 | A publisher whose claim was taken over cannot acknowledge until it claims again |
| JobEffects.RegisterObeys | app/jobs/redis_store.py:160-222 | Each registration decides by the records of identity and trip alone, and writes what `RegisterLaw` says, in every concurrent history |
| JobEffects.ClaimObeys | app/jobs/redis_store.py:303-370 | A claim goes through exactly when fewer jobs of the kind run than may and one is queued; it takes the first registered |
| JobEffects.HeartbeatObeys | app/jobs/redis_store.py:454-461 | When a heartbeat succeeds and what it moves |
| JobEffects.ProgressObeys | app/jobs/redis_store.py:463-486 | When progress is refused, raised or saved, and what is saved |
| JobEffects.ReturnObeys | app/jobs/redis_store.py:431-444 | When a claim is undone, and where the job is then |
| JobEffects.FinishObeys | app/jobs/redis_store.py:488-525 | When a job ends, with which event, and which indexes it leaves |
| JobEffects.CancelObeys | app/jobs/redis_store.py:530-541 | A queued job ends, a running one is only marked, an ended one raises |
| JobEffects.RecoverObeys | app/jobs/redis_store.py:574-587 | Recovery fails a running job exactly when lease or time limit has run out |
| JobEffects.ClaimResultObeys | app/jobs/redis_store.py:589-597 | When a result is handed to a publisher, and for how long |
| JobEffects.AcknowledgeObeys | app/jobs/redis_store.py:599-618 | When an acknowledgement counts, and what it changes |
| JobEffects.StageObeys | app/jobs/redis_store.py:83-143 | When a batch is staged, and what the staging area holds then |
| JobEffects.HeartbeatProtects | app/jobs/redis_store.py:446-461 | After a heartbeat the runner keeps its job, whatever all others do, for a whole lease or until the time limit, unless it ends it or gives it back |
| JobEffects.HeldUntilOverdue | app/jobs/redis_store.py:446-452 | In every reachable state a running job is held by its runner exactly until it is overdue, which is when its score in `running` is reached |
| JobEffects.EndIsObserved | app/observability/metrics.py:65-82 | An ended job adds its total, queue and execution time to the series of its kind and outcome and to no other |
| Optimistic.Footprint | app/jobs/redis_store.py:83-618 | Every value a transaction branches on, the clock apart, comes from a watched key |
| Optimistic.CommitIsAtomic | app/jobs/redis_store.py:382-429 | A successful EXEC has the effect of the whole body run at commit time |
| Optimistic.InterleavingsAreAtomic | app/jobs/redis_store.py:83-618 | Any interleaving of read-then-commit clients is a run of atomic steps in commit order |
| Optimistic.ConcurrentHistories | app/jobs/redis_store.py:1-4 | From an empty Redis every concurrent history keeps the invariant, so all guarantees about runs hold of it |
| Optimistic.UndisturbedGoesThrough | app/jobs/redis_store.py:83-618 | A client nobody disturbs carries its operation out |
| Optimistic.RunsHappen | app/jobs/redis_store.py:83-618 | Every run of atomic steps at the current time is what some interleaving of clients amounts to |
| Publishing.OnlyAcknowledgePublishes | app/jobs/redis_store.py:611-614 | Nothing but an acknowledgement marks a result published |
| Publishing.PublishedWasDelivered | app/jobs/kafka.py:280-299 | A published result reached the broker at least once, with its own content and topic |
| Publishing.CopiesAreIdentical | app/jobs/kafka.py:285-296 | All copies of a result the broker ever receives are the same message, however late or often a send gets through |
| Publishing.NoResultIsLost | app/jobs/kafka.py:284-329 | A terminal record is in the outbox until delivered and acknowledged |
| Publishing.DueResultIsPublished | app/jobs/kafka.py:280-299 | A publisher that is not interrupted sends a due result once and takes it out of the outbox |
| Intake.RegisterCloses | app/jobs/kafka.py:66-139 | Registering leaves the execution accepted or ignored |
| Intake.CommittedIsSettled | app/jobs/kafka.py:217-265 | Below the committed offset every job is accepted or ignored and only messages that failed three times were set aside |
| Intake.RedeliveredJobIsNoop | app/jobs/kafka.py:231-234 | Delivering a settled job again is answered as a duplicate and changes nothing |
| Intake.AcceptDecides | app/jobs/kafka.py:154-207 | A job, and a batch not rejected, is settled at once; a rejected message is tried again and set aside at its third failure if the dead-letter topic takes it |
| Gate.RequestGate.Claim | app/jobs/gpu_requests.py:29-43 | Granted exactly when fewer than the limit hold a lease and no one changed the key meanwhile; expired tokens go and the new one is added, or nothing changes |
| Gate.RequestGate.Acquire | app/jobs/gpu_requests.py:50-52 | Whatever others do between polls, polling stops at the first one that is undisturbed and finds room, adding its token to the set found; else it changes nothing |
| Gate.RequestGate.Release | app/jobs/gpu_requests.py:74-80 | Exactly the own token is removed |
| Gate.NeverOverLimit | app/jobs/gpu_requests.py:29-43 | Under any interleaving, expiry, lost response or late EXEC the gate holds at most the limit of tokens |
| Gate.CallsWithinLimit | app/jobs/gpu_requests.py:45-80 | If calls start less than five seconds after their claims, at most the limit run at once |
| Gate.LateStartsOverrun | app/jobs/gpu_requests.py:71-73 | For every limit and timeout, starts allowed any later than five seconds after a claim admit a history with one call too many |
| Gate.ExactDelay | app/jobs/gpu_requests.py:45-80 | Every history whose calls start less than a delay after their claims keeps at most the limit of calls running exactly when the delay is at most five seconds |
| Merging.RootIsLeft | app/pipeline/agent/trip.py:66-69 | Following `merged` ends at a folder that was not merged away |
| Merging.RootOfChild | app/pipeline/agent/graph.py:229-233 | A folder has the root of the folder it was merged into |
| Merging.RootAppend | app/pipeline/agent/graph.py:232-233 | A new entry of `merged` redirects exactly the folders whose root it is |
| Merging.ClosureStep | app/pipeline/agent/graph.py:229-233 | Putting one more group together extends the equivalence closure by that group |
| Merging.RootsMergedStep | app/pipeline/agent/graph.py:226-233 | Groups put together one after the other lead to the roots that joining them in order prescribes |
| TripPlaces.RootHasCoordinates | app/pipeline/agent/trip.py:203-217 | Whatever a known folder was merged into has a GPS photo or a candidate, so `assign` has coordinates to give |
| TripPlaces.PlacingKeepsGrounded | app/pipeline/agent/trip.py:218-221 | Placing a target keeps every folder provided with coordinates |
| TripPlaces.SpotStays | app/pipeline/agent/trip.py:203-217 | Placing further photos leaves earlier coordinates those of the folder's nearest GPS photo |
| AgentRuns.VettedIsAdmissible | app/pipeline/agent/model.py:370-376 | What is kept of a round of answers is about targets, and names folders in use or places on the globe |
| AgentRuns.VettedIs | app/pipeline/agent/model.py:370-385 | Exactly the proposals about targets that open a place or name a folder in use are kept, in order and as often as made |
| AgentRuns.AnswersTakeEffect | app/pipeline/agent/graph.py:187-208 | The first acceptable answer about a target is where the photo is once the round is carried out, for folders in use and for places not opened yet |
| AgentRuns.OpenedAreProposed | app/pipeline/agent/trip.py:223-230 | A folder is opened only for a carried-out proposal, with its name, coordinates and candidate |
| AgentRuns.AdmittedIs | app/pipeline/agent/model.py:478-479 | A group keeps exactly the folders in use that its names, merges followed, stand for |
| AgentRuns.AdmittedInOrder | app/pipeline/agent/model.py:478-479 | The folders of a group come in the order in which the answer names them first, each once |
| AgentRuns.AdmittedAllIs | app/pipeline/agent/model.py:469-481 | Exactly the groups that name two different folders in use remain, in order |
| AgentRuns.MergeWaits | app/pipeline/agent/graph.py:155-158 | The merge comes once no target is left, a round has placed nothing, or five rounds are over |
| AgentRuns.LeftoversWereEstimated | app/pipeline/agent/graph.py:155-158 | A finished path leaves targets only after a last round of estimates, made after the merge |
| Agent.TripView.Canon | app/pipeline/agent/trip.py:66-69 | The loop over `merged` terminates at the root |
| Agent.TripView.Nearest | app/pipeline/agent/trip.py:206-211 | The folder's GPS photo most similar to the target, ties to the smaller ID, if there is one |
| Agent.TripView.Assign | app/pipeline/agent/trip.py:203-221 | Fails exactly without a GPS photo and candidate; else places the photo with the right coordinates and touches no other |
| Agent.TripView.AddNewPlace | app/pipeline/agent/trip.py:223-230 | One folder per candidate across all rounds, merges taken into account |
| Agent.TripView.CarryOut | app/pipeline/agent/graph.py:202-208 | Carrying out a proposal never fails and puts the target where the proposal says |
| Agent.TripView.Aggregate | app/pipeline/agent/graph.py:187-219 | The whole effect: every accepted target is placed by its first proposal with its folder's nearest coordinates, one folder is opened per new candidate, nothing else changes, the count is that of distinct targets and no error occurs |
| Agent.TripView.MergeGroup | app/pipeline/agent/graph.py:229-233 | A group's folders all get the root of the first, other folders keep theirs |
| Agent.TripView.MergeGroups | app/pipeline/agent/graph.py:226-242 | Two folders end up as one exactly when the groups connect them, under the root that joining them in order prescribes |
| Agent.TripView.Admit | app/pipeline/agent/model.py:472-481 | A group of the answer comes down to its distinct folders in use, in order |
| Agent.TripView.AdmitAll | app/pipeline/agent/model.py:469-481 | Exactly the groups of the answer that name two different folders in use remain, in order |
| Agent.TripView.Vet | app/pipeline/agent/model.py:370-376 | Exactly the proposals about photos without GPS and folder and with an unclear location that open a place or name a folder in use remain, in order and as often as made, naming folders by their roots |
| Agent.TripView.HasTarget | app/pipeline/agent/trip.py:145-153 | Some photo without GPS has no folder and an unclear location |
| Agent.TripView.MergeOnce | app/pipeline/agent/graph.py:226-242 | With fewer than two folders in use nothing is merged; otherwise exactly the admitted groups of the model's answer are, and roots follow |
| Agent.TripView.Finish | app/pipeline/agent/trip.py:232-246 | Every placed photo gets one more than the number of folders in use ordered before its own |
| Agent.TripView.Rounds | app/pipeline/agent/graph.py:152-254 | The visits form a path through the graph from the starting state to the final one, each node doing to the model's answer and the photos what it should; it ends within the recursion limit, with one merge, at most six estimates and none exactly when there is no target |
| Agent.TripView.Run | app/pipeline/agent/graph.py:99-274 | Skips exactly when there is no target and fewer than two folders; else the photos come from a finished path through the graph, those that had a folder share one afterwards exactly when its merge groups connect their folders, folders are p1 to pk, and no error occurs |
| Agent.FinishKeepsNumbers | app/pipeline/agent/trip.py:235-236 | Without merges and new folders p1 to pk keep their numbers |
| Numbering.SortPlaces | app/pipeline/agent/trip.py:242 | The folders in use in order: clustered ones by number, then opened ones in opening order |
| Numbering.RenumberingKeepsOrder | app/pipeline/agent/trip.py:242-243 | Renumbering is injective and keeps the order |
| Numbering.AllNumbersTaken | app/pipeline/agent/trip.py:243 | The numbers given out are exactly p1 to pk |
| Assigning.AssignUnlocated | app/pipeline/steps/assigning.py:26-100 | The answer for the photos in ID order, in all three outcomes: an error for rejected input, an error exactly when some round meets a folder without GPS photo, else the fixpoint of the rounds and the number placed |
| Assigning.TimeLoop | app/pipeline/steps/assigning.py:64-84 | One pass of interpolation against the track taken at the start of the round; it fails exactly at a folder without GPS photo |
| Assigning.SimilarLoop | app/pipeline/steps/assigning.py:85-99 | One pass of following similar photos, each placement counting at once; it fails exactly at a folder without GPS photo |
| Assigning.Interpolate | app/pipeline/steps/assigning.py:72-82 | The neighbours in time name a folder exactly when they share it and are within the gap |
| Assigning.Follow | app/pipeline/steps/assigning.py:89-97 | Similar photos name a folder exactly when it is the only one |
| Assigning.PutPhoto | app/pipeline/steps/assigning.py:103-116 | The photo gets the coordinates of the folder's most similar GPS photo; fails exactly without one |
| Assigning.RoundShrinks | app/pipeline/steps/assigning.py:62-99 | A round that changes anything leaves fewer waiting targets |
| Assigning.SettledIsComplete | app/pipeline/steps/assigning.py:1-9 | Placed photos are not moved, new ones have their folder's nearest coordinates, and no rule applies to a remaining target |
| Assigning.TimeRule | app/pipeline/steps/assigning.py:64-84 | Photo by photo: the first rule places exactly the waiting ones whose neighbours in time at the start of the round share a folder and are within the gap, with the coordinates of its most similar GPS photo |
| Assigning.SimilarRule | app/pipeline/steps/assigning.py:85-99 | The second rule places the next waiting photo exactly when all placed photos like it, those placed a moment ago included, are in one folder |
| Assigning.RulesAreExhausted | app/pipeline/steps/assigning.py:43-49 | In the end no waiting photo, of known or unknown time, has agreeing neighbours in time or look-alikes in one folder only |
| Assigning.OrderDoesNotMatter | app/pipeline/steps/assigning.py:36-42 | Photos coming in any order get the same answer: the same error, or the same photos and count |
| Assigning.AnswerExists | app/pipeline/steps/assigning.py:36-61 | Photos with distinct IDs have an answer, an input error exactly where the photos as they come are rejected |
| Assigning.NeverStuck | app/pipeline/steps/assigning.py:103-116 | Where every folder has a GPS photo, no round ever meets a folder without one |
| Filtering.CheckInput | app/pipeline/steps/filtering.py:95-128 | Input is refused exactly for thresholds out of range, a repeated ID, or a photo with undecided time, no valid metrics or a folder that contradicts the issue |
| Filtering.FindOriginal | app/pipeline/steps/filtering.py:142-147 | The first kept photo within the hash distance |
| Filtering.FilterGroup | app/pipeline/steps/filtering.py:131-149 | The loop over a sorted folder judges every photo of it and no other |
| Filtering.FilterPhotos | app/pipeline/steps/filtering.py:80-151 | All input is checked before anything changes; then every photo is blurry below the threshold, else a duplicate of the look-alike of its folder kept and taken first, if there is one, else kept |
| Filtering.KeptAreFarApart | app/pipeline/steps/filtering.py:89-92 | Kept photos of a folder are pairwise beyond the hash distance |
| Filtering.DuplicateNamesFirstKept | app/pipeline/steps/filtering.py:142-147 | A duplicate names a kept look-alike of its folder taken before it, and before all others: known times first, earlier first, then smaller ID |
| Filtering.VerdictsAreFair | app/pipeline/steps/filtering.py:130-149 | Each verdict in terms of times, IDs, variances and hash distances |
| Filtering.SharpFolderKeepsOne | app/pipeline/agent/trip.py:255-256 | A folder with a sharp photo keeps at least one |
| Filtering.VerdictsAgree | app/pipeline/steps/filtering.py:130-149 | The verdicts are determined by the photos |
| Filtering.RefilteringChangesNothing | app/pipeline/steps/filtering.py:92 | Filtering again is accepted and changes nothing |
| Filtering.ReleaseUnshowable | app/pipeline/agent/trip.py:252-276 | Exactly the photos of folders with neither a GPS photo nor a photo without issue lose their folder, and their IDs are returned |
| Finalizing.CheckPhotos | app/pipeline/steps/finalizing.py:90-118 | The loop accepts exactly when every photo is consistent, scorable and, if a duplicate, points to a kept photo of its folder |
| Finalizing.AcceptableIsConsistent | app/pipeline/steps/finalizing.py:33-59 | A photo passes validation exactly when none of the reasons to raise holds |
| Finalizing.MakeEntry | app/pipeline/steps/finalizing.py:124-142 | A place is made exactly when it has a candidate, a centre and a representative among its candidates; its contents and time range |
| Finalizing.Finalize | app/pipeline/steps/finalizing.py:74-157 | Succeeds exactly when all checks hold, with the places in the order of their IDs' text, the unclassified photos and the score of every photo |
| Finalizing.AttachmentsInOrder | app/pipeline/steps/finalizing.py:26-30 | The attachments of a place come known times first, earlier before later, then by ID |
| Finalizing.PlacesInOrder | app/pipeline/steps/finalizing.py:124 | Places come in the order of their IDs as text, a letter and a number in decimal |
| Finalizing.SortIds | app/pipeline/steps/finalizing.py:124 | The folders in use, each once, in the order of their text |
| Finalizing.IdsAreOrdered | app/pipeline/steps/finalizing.py:124 | Different folders have different text, so the order by text is strict and total |
| Finalizing.Evaluate | app/pipeline/steps/finalizing.py:95-108 | Every photo gets its own score, none exactly when its location stayed unclear |
| Finalizing.OwnScore | app/pipeline/steps/finalizing.py:95-108 | Every photo has the score of its own variance, unless its location stayed unclear |
| Finalizing.ScoreIs | app/pipeline/steps/represent.py:9-18 | The score is the whole number nearest to 100 v / (v + 100), of two the even one: 0 without variance, 50 at 100 |
| Finalizing.ScoresGrow | app/pipeline/steps/represent.py:9-18 | Scores lie between 0 and 100 and never fall as the variance grows |
| Finalizing.EveryPhotoOnce | app/schemas/process.py:183-192 | On success every photo is in the result exactly once |
| Finalizing.NothingElse | app/pipeline/steps/finalizing.py:138-152 | Nothing but input photos is in the result |
| Finalizing.ReleasedWereBlurry | app/pipeline/agent/trip.py:255-256 | A released folder held only blurry photos |
| Finalizing.DuplicatesAreFine | app/pipeline/steps/finalizing.py:109-118 | After filtering and releasing the duplicate check cannot fail |
| Finalizing.OrganisedIsAcceptable | app/pipeline/steps/finalizing.py:33-59 | After filtering and releasing every photo passes validation |
| Finalizing.EmptyFoldersAreBlurry | app/pipeline/agent/trip.py:258-261 | The only folders left without a photo to show are blurry ones with a GPS photo |
| Finalizing.OnlyBlurryFoldersFail | app/pipeline/steps/finalizing.py:79-84 | With centres and representatives computable, a result is made exactly when no folder with GPS is all blurry |
| Pipeline.ReadyIsAccepted | app/pipeline/run.py:255-264 | What rules and agent leave behind is accepted by filtering exactly when the thresholds are in range |
| Pipeline.BlurryThroughout | app/pipeline/run.py:255-283 | A folder is all blurry at the end exactly when it had GPS photos and every variance below the threshold before filtering |
| Pipeline.NothingToRelease | app/pipeline/run.py:265-269 | Without an agent, where every folder has a GPS photo, leaving out the release makes no difference |
| Pipeline.Conclude | app/pipeline/run.py:255-283 | From placed photos on: the final photos are the filtered ones with exactly the unshowable folders released; a result exists exactly when no folder with GPS photos had every variance below the threshold, and holds the final photos as promised |
| Pipeline.Organise | app/pipeline/run.py:227-283 | A whole job after clustering, photos in any order, with or without agent: it fails on rejected input or thresholds; otherwise the final photos come from sorting, the fixpoint of the rules, a run of the agent (or none, exactly where it skips), filtering and release, and a result exists exactly when no folder with GPS photos was too blurry |
| Story.Allocate | app/story/selection.py:56-70 | Fails exactly on an impossible budget; else shares add up to the smaller of budget and supply, lie between 1 and the supply, within one of proportion, rounded up by largest remainder |
| Story.RestFits | app/story/selection.py:64-69 | What rounding down leaves over fits among the places with a positive remainder |
| Story.LuckyArePositive | app/story/selection.py:67-69 | A place rounded up has a positive remainder, so it has the photo to give |
| Story.LargestRemaindersWin | app/story/selection.py:64-69 | Left-over photos go to the largest remainders, of equal ones to the first place |
| Story.Choose | app/story/selection.py:143-156 | Best first: closest to the mean, then earlier, then smaller ID; none too similar to a better one, and nobody passed over without such a reason or a full allocation |
| Story.BestComesFirst | app/story/selection.py:143-156 | The best photo of a place is always chosen |
| Story.Select | app/story/selection.py:130-158 | Fails only where the allocation does; the answer is every place's choice in time order, at least one per place and within the budget |
| Story.SelectionFitsBudget | app/story/selection.py:138-157 | At least one photo of every place and never more than the budget |
| PlaceSearch.JoinedContains | app/infra/place_index.py:108-109 | Searching the joined names finds a match exactly when a single name contains the query |
| PlaceSearch.AllFound | app/infra/place_index.py:101-116 | The three passes find exactly the places with a tier |
| PlaceSearch.PlaceIndex.ByGrams | app/infra/place_index.py:105-107 | For three characters or more, the places with a name containing the query |
| PlaceSearch.PlaceIndex.ByText | app/infra/place_index.py:108-109 | For two characters, the places with a name containing the query |
| PlaceSearch.PlaceIndex.Collect | app/infra/place_index.py:93-99 | A place keeps its first, best score; new ones in reach are added |
| PlaceSearch.PlaceIndex.Match | app/infra/place_index.py:101-116 | After all passes exactly the places with a tier within the radius are held, with that tier |
| PlaceSearch.PlaceIndex.Search | app/infra/place_index.py:76-129 | The first `limit` of the ranking of all places by tier, distance and text of the source within the capped radius |
| PlaceSearch.OneRanking | app/infra/place_index.py:117 | There is only one such ranking |
| PlaceSearch.RankedInOrder | app/infra/place_index.py:117 | Hits come by tier, then distance, then the text of source and number |
| PlaceSearch.CappedIs | app/infra/place_index.py:83-85 | The radius is kept between 1 metre and 30 km, or 5 km for two characters |
| PlaceBuild.WordsOnly | app/infra/place_index.py:31-34 | Normalised names never hold the separator |
| PlaceBuild.WordsAre | app/infra/place_index.py:31-34 | Normalising keeps every letter and digit, in order, and nothing else |
| PlaceBuild.NormsAre | scripts/build_place_index.py:149-150 | The names of a place are its normalised, non-empty labels |
| PlaceBuild.BuildSource | scripts/build_place_index.py:138-170 | A row for the first usable record of each number of the source and for nothing else; kept and dropped add up |
| PlaceBuild.Build | scripts/build_place_index.py:117-172 | The tables hold exactly the usable records of all sources, consistently |
| PlaceBuild.TablesDescribe | scripts/build_place_index.py:117-172 | Every first record of a number in Korea with a name has a row with its own coordinates, category and names, and no row says anything else |

## Left out

- JobStore.RedisJobStore.Cancel: the reply `Raised` stands for TASK_NOT_CANCELABLE, no reply for TASK_NOT_FOUND.
- JobStore.RedisJobStore.Claim: one attempt; the checks of `should_stop` are a return without effect before EXEC, and after it the return of the claim, which is a separate step.
- Gate.RequestGate.Acquire: what each poll finds is given, with nothing said about how others brought it about; the histories do.
- Agent.TripView.Vet: confidence, regions and the second look of the model only remove proposals, so they are part of its arbitrary answer; a place search finding no candidate likewise.
- Agent.TripView.Rounds: the deadline, cancellation and failures of the generation server, which abort the whole job.
- Pipeline.Organise: candidates of a place search have coordinates on the globe, and centre and representative can be computed; the model answers as a function of round, photos and merges, which narrows nothing because no two visits of a node share a round; download, clock, stage reports and cancellation are left to the steps around it.
- Finalizing.Finalize: centre and representative are arbitrary functions that may fail; scores are computed over reals, without the rounding of floating point before the last.
- PlaceSearch.PlaceIndex.Search: rejection of non-finite coordinates, rounding of distances and the shape of a candidate; that the search box contains the disc is assumed, and a full-text match of three characters or more is taken as substring search.
- PlaceBuild.Build: reading the source files, stripping labels and parsing coordinates; Unicode folding is an arbitrary function, letters and digits an arbitrary class without the separator.
- Assigning.AssignUnlocated: photo IDs are distinct, which filtering would refuse otherwise; an interpolation gap given in minutes is converted before; sorting of entries at equal time by folder text cannot matter with distinct IDs.
- Real Redis, Kafka, HTTP, object storage, vector search and subprocesses; callers are steps that may stop, be late or lose a response.
- The counter of a message's failures expires after 30 days; here it stays.
- Losing the whole Redis data set, and replicas with different lease or time limit settings.
- The in-memory task service of v1.
- Durations of stages, peak memory, photo metrics records, counters of classified photos and story blocks, logs and traces.
- Message parsing and validation, beyond their outcome: a job, a job already failed, a photo batch, or malformed.
- The list of photos in a batch is a map from photo ID to storage key; batches are sorted by ID and hold distinct IDs.
- LOCATING, CLOCK and CLUSTERING; what they hand over is the state the rules start from, with each folder holding a GPS photo of its own.
- Photos outside the trip period, which the agent's view leaves out, and an empty string as folder ID.
- Duplicate filtering of story candidates, unit vectors, similarity matrices and the threshold of `duplicate_threshold`.
- Prompts, tool calls, summaries and search answers of the agent.
