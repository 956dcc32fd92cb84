# Orakl: protocol and arithmetic proofs

A Dafny model of the parts of the Orakl network where a wrong step costs money or data, with
proofs over every input, every interleaving and every run. `dafny verify dfyconfig.toml`
checks the whole project.

Systems with concurrency are step systems: a state, a set of actions, and runs that are any
sequence of enabled actions. Messages may be delivered in any order and any number of times,
timers may fire at any time, remote calls may fail (a failed write may still have been
applied), and processes may crash between any two awaited calls. A log in the state records
what happened, so that results speak about whole runs. Code that updates objects, arrays or
local variables is written as classes and methods with loops, each proved equal to the
function the step system uses; where the source is an expression, so is the model.

| file | what it models |
|---|---|
| `GoInt`, `Sorting`, `Bytes` | machine integers, the sort, big-endian and hexadecimal strings |
| `RoundTables`, `Median`, `Aggregator` | one node of the off-chain aggregation round: per-round tables, pruning, medians, the handlers |
| `RoundProtocol`, `RoundTraces`, `RoundLocking`, `RoundQuorum`, `RoundAgreement`, `RoundOrder`, `LateTrigger`, `RoundProgress` | all nodes together: no equivocation, quorum, round agreement, rounds that only go forward, how a late trigger breaks agreement, and that a round can be completed |
| `Raft`, `RaftCluster`, `RaftSafety`, `RaftVotes`, `RaftElection`, `RaftConflicts`, `RaftTwoLeaders` | leader election: node invariants, when votes are given and what they are worth, elections that succeed, conflict resolution, when one term can have two leaders |
| `Listener`, `ListenerSafety`, `ListenerDrain`, `ListenerLimits`, `ListenerLoss`, `ListenerJobs`, `BlockStore` | the block listener: no tracked block is lost, recovery, draining and catching up, where tracking starts and when jobs run out, when a block can be lost, the jobs and State.add as code, the SQL tables |
| `Vrf`, `VrfProofs`, `VrfToyCurve` | ECVRF on an abstract curve of prime order: completeness, what verification decides, special soundness, encodings, fast verification, and a curve that meets the assumptions |
| `LocalAggregator`, `LocalPrice` | outlier removal, volume-weighted price, median, and what their mix is |
| `NoncePool` | the pooled nonce manager |
| `ReporterNonces`, `ReporterSafety`, `ReporterSharing`, `ReporterJob` | nonces across retrying reporter jobs, when two share one, and the job as code |
| `SignPreimage`, `ReportBatches` | the signed byte string, and submission in batches |

## Findings

Where the code does not keep what one would expect of it, the model keeps the code, gives a
concrete input or run, and proves when the property does hold.

- The int64 median of non-negative prices lies between the least and the greatest exactly
  when the two middle prices add up within int64; otherwise it is negative
  (`MedianInRange`, `MedianCanOverflow`).
- Handling a trigger prunes every round newer than it. A trigger handled late drops the lock
  of a round already fixed, and the leader fixes that round again at another price
  (`LateTriggerFixesTwice`). Round agreement holds for every round the leader keeps after
  fixing it, whatever the other nodes prune (`RoundAgreement`). The leader keeps it, while no
  trigger that leaves it out is delivered, exactly if no prune it has yet to do leaves it out
  (`KeepsUntilDropIsDue`). Triggers may be delivered again, so agreement is safe exactly if no
  trigger published so far leaves the round out; any other lets the leader fix the round again
  at any price (`AgreementLasts`, `FixedAgainAtAnyPrice`).
- A vote reply carries no term and is counted whoever sent it, and the threshold is
  (peers+1)/2, so any cluster of at least two nodes can have two leaders of one term
  (`TwoLeadersOneTerm`). Heartbeats settle the conflict (`GreatestLeaderPrevails`,
  `ClusterCanSettle`), and a cluster of at least two nodes is never stuck without a leader
  (`EveryRunCanElect`).
- The round counter is an int32: rounds go forward exactly until it wraps around
  (`RoundsGoForward`, `CounterWraps`).
- The listener's documentation promises that no event is missed. A history job that uses up
  its attempts before recording its block loses the block (`BlockCanBeLost`); that is the
  only way (`NoTrackedBlockLost`), and it threatens exactly the tracked blocks that are
  neither dispatched nor recorded (`LossIsPossible`). All others can be dispatched, with the
  table and the history queue drained (`EveryBlockCanBeDispatched`, `CatchesUp`).
- A refresh sets a reporter's nonce counter to its account's transaction count, whatever
  queued jobs hold. Set at or below a number that a job may still send, it hands that number
  out again, and two jobs send it (`RefreshSharesANonce`); it is safe exactly when no job
  holds a number that high (`RestartIsSafe`).
- Outliers are deleted by value. At most a quarter of the feeds goes exactly when no value
  lies on both sides of a cut (`RemovalBound`, `TiesExceedTheBound`).
- The signed string keeps the magnitude of value and timestamp and loses their signs
  (`PreimageDetermines`, `SignIsLost`).
- Waiting for a report to be submitted ends whatever happens exactly for reports of at most
  250 rows: a sixth failing batch blocks on the error channel (`AlwaysEnds`, `WaitEnds`).
- `processVrfRequest` never reports its own proof as invalid, but throws when s is 0 or the
  challenge is a multiple of the group order (`RequestSucceeds`, `ToyRequestThrows`).

## Model

| member | source | states |
|---|---|---|
| `Median.FilterNegative` | node/pkg/aggregator/utils.go:10-19 | the loop computes the subsequence of non-negative values |
| `Median.NonNegativeIsTheFilter` | node/pkg/aggregator/utils.go:10-19 | every non-negative value is kept as often as it occurs, no negative value is |
| `Median.MedianInRange` | node/pkg/utils/calculator/calculator.go:50-71 | for non-negative values the median lies between least and greatest if and only if the two middle values add up within int64, and is negative if and only if they do not |
| `Median.MedianIsMiddle` | node/pkg/utils/calculator/calculator.go:50-71 | the median is, and only is, the middle by rank counted in the unsorted prices: the element with at most half of the others below and at most half above, or the truncated half of the wrapped sum of the two middle ones |
| `Median.MedianRealIsMiddle` | node/pkg/utils/calculator/calculator.go:84-93 | the float median is the mean of the two middle elements by rank |
| `Median.MedianCanOverflow` | node/pkg/utils/calculator/calculator.go:58-60 | two equal prices of 2^62 have a negative median |
| `Median.MedianRealInRange` | node/pkg/utils/calculator/calculator.go:84-93 | the float median lies within any bounds of its inputs |
| `RoundTables.WindowIsLastTen` | node/pkg/aggregator/types.go:62-75 | the int32 comparison keeps exactly the ten rounds up to r, and none where r-10 wraps around |
| `RoundTables.LeaveOnlyLast10` | node/pkg/aggregator/types.go:62-75 | the rebuilding loop keeps exactly the window's entries, unchanged |
| `RoundTables.RoundLocks.LeaveOnlyLast10Entries` | node/pkg/aggregator/types.go:127-138 | the lock map is replaced by its restriction to the window |
| `RoundTables.RoundTable.IsReplay` | node/pkg/aggregator/types.go:84-91 | true exactly when the sender is booked for the round |
| `RoundTables.RoundTable.Store` | node/pkg/aggregator/aggregator.go:190-198 | item and sender are appended to their round, nothing else changes |
| `RoundTables.RoundTable.LeaveOnlyLast10Entries` | node/pkg/aggregator/types.go:93-120 | items, senders and locks are each restricted to the window |
| `RoundTables.Table.StoreIsSound` | node/pkg/aggregator/aggregator.go:190-198 | storing for a new sender keeps items and senders aligned and senders distinct |
| `Aggregator.AggregatorNode.HandleTriggerMessage` | node/pkg/aggregator/aggregator.go:99-147 | same new state, output and error as the step, followed by the prune of all tables on every parsed trigger |
| `Aggregator.AggregatorNode.LeaveOnlyLast10Entries` | node/pkg/aggregator/aggregator.go:464-469 | the four tables are pruned at the round |
| `Aggregator.PruneLeavesLastTen` | node/pkg/aggregator/aggregator.go:464-469 | a prune leaves in each of the eight maps exactly the entries of the ten rounds up to its own, unchanged, and none where r-10 wraps around |
| `Aggregator.AggregatorNode.HandlePriceDataMessage` | node/pkg/aggregator/aggregator.go:149-188 | same new state, output, timer and error as the step, and the tables stay sound |
| `Aggregator.AggregatorNode.PriceCollectionTimeout` | node/pkg/aggregator/aggregator.go:200-219 | same as the step for a collection that ends by timeout |
| `Aggregator.AggregatorNode.ProcessCollectedPrices` | node/pkg/aggregator/aggregator.go:221-243 | same as the step: lock, and on the leader the median as price fix |
| `Aggregator.AggregatorNode.HandlePriceFixMessage` | node/pkg/aggregator/aggregator.go:245-276 | same as the step: only the leader's fix, once, is signed |
| `Aggregator.AggregatorNode.HandleProofMessage` | node/pkg/aggregator/aggregator.go:278-320 | same new state, output, timer and error as the step |
| `Aggregator.AggregatorNode.ProofCollectionTimeout` | node/pkg/aggregator/aggregator.go:332-352 | same as the step for proofs that end by timeout |
| `Aggregator.AggregatorNode.ProcessCollectedProofs` | node/pkg/aggregator/aggregator.go:354-374 | same as the step: lock, concatenate, stream |
| `RoundLocking.NoEquivocation` | node/pkg/aggregator/aggregator.go:125-374 | in every run, two price data, fixes, proofs or aggregates of one node for one round have a prune of that round between them |
| `RoundQuorum.TablesStaySound` | node/pkg/aggregator/types.go:84-183 | in every run every table is aligned, without repeated senders, and each entry was published by the sender it is booked under |
| `RoundQuorum.ErrorsAreExact` | node/pkg/aggregator/aggregator.go:99-320 | exactly which message meets which error, and that an error sends nothing, starts no timer and changes nothing but the lock of a failed signature |
| `RoundQuorum.EveryFixRestsOnQuorum` | node/pkg/aggregator/aggregator.go:162-243 | every fix rests on at least (peers+1)/2 distinct senders, is the median by rank of their non-negative prices, and lies between their non-negative prices if and only if the middle ones add up within int64 |
| `RoundQuorum.EveryAggregateRestsOnQuorum` | node/pkg/aggregator/aggregator.go:296-374 | whoever leads, the bytes of every aggregate, cut at the lengths of the collected proofs, are exactly the proofs of at least (peers+1)/2 distinct senders, each published for that round by its sender; value and time are not zero |
| `RoundAgreement.RoundAgreement` | node/pkg/aggregator/aggregator.go:149-374 | with one fixed leader, all fixes, proofs and aggregates of a round the leader keeps carry one value and one timestamp |
| `RoundAgreement.StreamedProofsSignTheAggregate` | node/pkg/aggregator/aggregator.go:278-374 | with one fixed leader and a round the leader keeps, every proof inside a streamed aggregate was published by its sender for exactly the streamed value and timestamp |
| `Bytes.ConcatCuts` | node/pkg/aggregator/aggregator.go:354-374 | the joined string cuts into the parts, in order and without rest |
| `RoundProgress.RoundCompletes` | node/pkg/aggregator/aggregator.go:76-374 | from any state in which the leader's next round is new, with any prices and signatures and either all peers or a quorum and the timers, a run fixes the round at the median by rank of the prices offered, and every node streams that price with the participants' signatures |
| `RoundOrder.RoundsGoForward` | node/pkg/aggregator/aggregator.go:76-147 | in every run, across leader changes, every round a node triggers is greater than every round it triggered or took part in before, if and only if its counter did not wrap around after it was first seen in a round |
| `RoundOrder.CounterWraps` | node/pkg/aggregator/aggregator.go:76-82 | the int32 counter does wrap: a run that triggers the greatest and then the least round |
| `LateTrigger.AgreementLasts` | node/pkg/aggregator/aggregator.go:99-374 | under a fixed leader that fixed a round, all nodes agree on it however the run goes on without a further published trigger that leaves the round out, if and only if no trigger published so far leaves it out |
| `LateTrigger.FixedAgainAtAnyPrice` | node/pkg/aggregator/aggregator.go:99-243 | once one does, the run goes on under the same leader and without any new trigger to a fix of that round at any price |
| `LateTrigger.PrunedRoundIsFixedAgain` | node/pkg/aggregator/aggregator.go:99-243 | so does every run in which the leader pruned a round after fixing it |
| `LateTrigger.KeepsUntilDropIsDue` | node/pkg/aggregator/aggregator.go:99-147 | whoever leads, a node that fixed a round keeps it however the run goes on without a trigger delivered to it that leaves the round out, if and only if it has kept it so far and none of its outstanding prunes leaves it out |
| `LateTrigger.LateTriggerFixesTwice` | node/pkg/aggregator/aggregator.go:99-147 | for any leader a run that fixes round 3 at two prices after the late trigger of round 2 |
| `Raft.RaftNode.constructor` | node/pkg/raft/raft.go:19-48 | a new node is a follower with an open resign channel |
| `Raft.RaftNode.HandleHeartbeat` | node/pkg/raft/raft.go:117-167 | same new state, closed channel and error as the step |
| `Raft.RaftNode.ResignLeader` | node/pkg/raft/raft.go:316-324 | closes the open channel once and becomes a follower without leader |
| `Raft.RaftNode.HandleRequestVote` | node/pkg/raft/raft.go:169-205 | same new state and reply as the step |
| `Raft.RaftNode.HandleReplyVote` | node/pkg/raft/raft.go:207-233 | same new state as the step: counts a granted vote, leads at the threshold |
| `Raft.RaftNode.StartElection` | node/pkg/raft/raft.go:407-439 | same new state and request as the step |
| `RaftSafety.OneVotePerTerm` | node/pkg/raft/raft.go:169-205 | in every run no node votes for two candidates in one term |
| `RaftSafety.RolesAreConsistent` | node/pkg/raft/raft.go:316-383 | in every reachable state a leader names itself, has an open, never closed resign channel and a running leader loop; a candidate has voted for itself |
| `RaftSafety.NeverTwice` | node/pkg/raft/raft.go:316-334 | in every run no channel is closed twice and no node gains leadership twice with one term |
| `RaftSafety.TermsNeverFall` | node/pkg/raft/raft.go:117-205 | in every run a node's term at any point is at most its term later |
| `RaftVotes.GrantsExactly` | node/pkg/raft/raft.go:169-205 | in every reachable state a node that does not lead grants a request if and only if its term is above the node's, or equal and the node has voted for nobody or for that sender; the vote is logged, a later term taken over |
| `RaftVotes.HeartbeatFollows` | node/pkg/raft/raft.go:117-167 | in every reachable state a heartbeat of another node is never refused, resets the missed count, raises the term to the sender's and decides role and leader as stated |
| `RaftVotes.ElectionNeedsSilence` | node/pkg/raft/raft.go:407-439 | a node asks for votes only on a timeout outside its cooldown and after two earlier ones since which it heard no heartbeat |
| `RaftVotes.OncePerThreeTimeouts` | node/pkg/raft/raft.go:407-439 | in every run a node stands at most once per three of its timeouts |
| `RaftVotes.LeadNeedsVotes` | node/pkg/raft/raft.go:207-233 | in every run a node gains the lead only on a granted reply to itself, with at least (peers+1)/2 of them heard since a timeout of its own |
| `RaftElection.ElectedByOthers` | node/pkg/raft/raft.go:169-233 | from every reachable state without a leader, a node of the greatest term comes to lead on the votes of any half of the cluster's other nodes, each reply counted once |
| `RaftElection.EveryRunCanElect` | node/pkg/raft/raft.go:169-439 | every run of at least two nodes without a leader goes on to one |
| `RaftConflicts.LessTotal` | node/pkg/raft/raft.go:152-166 | host ids are totally ordered, so of two leaders of one term exactly one yields |
| `RaftConflicts.HeartbeatSettles` | node/pkg/raft/raft.go:117-167 | a leader that hears another stays one if and only if the other is below it by term, then host id; nobody becomes leader |
| `RaftConflicts.GreatestLeaderPrevails` | node/pkg/raft/raft.go:117-167 | over any sequence of heartbeats of current leaders the greatest stays, none is created, and whoever heard the greatest is none |
| `RaftConflicts.BroadcastElects` | node/pkg/raft/raft.go:117-167 | the greatest leader's heartbeat to all others, in any order, leaves one leader; all nodes name it if and only if no node of a higher term named another |
| `RaftConflicts.BroadcastNames` | node/pkg/raft/raft.go:144-166 | what that broadcast leaves as each node's leader id |
| `RaftConflicts.GreatestOf` | node/pkg/raft/raft.go:152-166 | among any nodes with a leader there is a greatest leader |
| `RaftConflicts.TickAndDeliver` | node/pkg/raft/raft.go:336-383 | a tick of a leader loop and its delivery are steps of the cluster with that effect |
| `RaftConflicts.ClusterCanSettle` | node/pkg/raft/raft.go:117-383 | every run that reaches a leader extends to one with exactly one leader, the greatest |
| `RaftTwoLeaders.TwoLeadersOneTerm` | node/pkg/raft/raft.go:207-233 | a cluster whose nodes count all others as peers has a run to two leaders of one term if and only if it has at least two nodes |
| `RaftTwoLeaders.AnyTwoCanLead` | node/pkg/raft/raft.go:207-233 | any two of its nodes can |
| `Listener.After` | core/src/listener/listener.ts:235-238 | the blocks a [latest] job records are exactly those after the observed one up to the height |
| `ListenerSafety.NoTrackedBlockLost` | core/src/listener/listener.ts:229-400 | at every step of every run each tracked block is dispatched, in the table, in the history queue, or was given up by a history job that never recorded it |
| `ListenerSafety.WatermarkNeverFalls` | node/pkg/api/blocks/queries.go:16-21 | no step lowers the observed block or moves the start block |
| `ListenerSafety.Recovery` | core/src/listener/state.ts:188-221 | after State.add returns every tracked block up to its watermark is dispatched or has a job, from then on, except blocks given up unrecorded and those whose job ran out after State.add read the table |
| `ListenerSafety.LatestJobLeavesNoneBehind` | core/src/listener/listener.ts:229-281 | every block of a [latest] job that returned is dispatched, has a job, or had one that ran out |
| `ListenerSafety.NoEventMissed` | core/src/listener/listener.ts:26-31 | with the table and the history queue empty and no block given up, every event of every block up to the watermark is with the worker |
| `ListenerSafety.DrainedQueuesMissNothingRecovered` | core/src/listener/listener.ts:312-400 | with both queues drained, so is every event of every tracked block up to the watermark State.add last returned with, unless the block was given up or its job ran out after State.add read the table |
| `ListenerDrain.EveryBlockCanBeDispatched` | core/src/listener/state.ts:188-221 | every run goes on to one in which the table and the history queue are empty and every event of every tracked block that was not given up is with the worker |
| `ListenerLimits.CatchesUp` | core/src/listener/listener.ts:191-281 | every run with a watermark goes on to any greater height as watermark, drained in the same way up to it |
| `ListenerLimits.TrackingStartsAsAsked` | core/src/listener/state.ts:197-221 | tracking starts at the block given, or for [latest] and [clear] at a height that State.add has read |
| `ListenerLimits.LatestTakesOn` | core/src/listener/listener.ts:220-238 | a [latest] job takes on exactly the blocks after the watermark up to the height, or exactly the head of a chain that is behind it |
| `ListenerLimits.JobsGetTenAttempts` | core/src/settings.ts:220-225 | if a block is given up or a job ran out, some job failed ten times or was given up after a crash |
| `ListenerLoss.LossIsPossible` | core/src/listener/listener.ts:312-325 | a tracked block can still be lost if and only if it is neither dispatched nor in the table |
| `ListenerLoss.DrainedQueuesCanMiss` | core/src/listener/listener.ts:239-245 | drained queues alone are not enough: from every drained state a crash after the upsert leaves a tracked block in the table only |
| `ListenerLoss.BlockCanBeLost` | core/src/listener/listener.ts:312-325 | for every block there is a run that tracks it and leaves no trace of it |
| `ListenerJobs.Store.LatestReadsRange` | core/src/listener/listener.ts:195-227 | the reads and the reverted-height case lead to the step system's range |
| `ListenerJobs.Store.LatestRecords` | core/src/listener/listener.ts:232-245 | insert and upsert, in that order, are the job's next two steps |
| `ListenerJobs.Store.LatestScans` | core/src/listener/listener.ts:247-260 | the scanning loop with its progress variable takes the job's steps block by block |
| `ListenerJobs.Store.LatestRequeuesRest` | core/src/listener/listener.ts:265-280 | the catch block requeues exactly the blocks after the last one scanned |
| `ListenerJobs.Store.LatestJob` | core/src/listener/listener.ts:191-281 | what the uninterrupted job leaves in tables and queues is what its own steps reach, one per awaited call, and it has settled its range when it returns |
| `ListenerJobs.Store.RetryBlock` | core/src/listener/listener.ts:312-336 | one attempt of the [history] job leaves what its own steps reach, and is gone from the queue when it succeeds |
| `ListenerJobs.Store.ProcessEventJob` | core/src/listener/listener.ts:361-397 | one attempt of the [processEvent] job, event by event and then the row, leaves what its own steps reach |
| `ListenerJobs.Store.AddRequeues` | core/src/listener/state.ts:191-195 | the loop requeues every unprocessed block, in whatever order the database lists them |
| `ListenerJobs.Store.AddCatchesUp` | core/src/listener/state.ts:197-221 | the three ways to start tracking or catch up are steps of State.add, including the failing upsert of block -1 |
| `ListenerJobs.Store.AddListener` | core/src/listener/state.ts:188-221 | what the uninterrupted State.add leaves is what its own steps reach, and it has recorded its watermark when it returns |
| `BlockStore.Tables.UpsertObservedBlock` | node/pkg/api/blocks/queries.go:16-21 | the greater block is kept and returned, other services are untouched |
| `BlockStore.Tables.InsertUnprocessedBlocks` | node/pkg/api/blocks/queries.go:37-51 | exactly the given blocks are added for the service, existing rows stay |
| `BlockStore.Tables.DeleteUnprocessedBlock` | node/pkg/api/blocks/queries.go:30-34 | exactly that block of that service is removed |
| `Vrf.TryAndIncrement` | vrf/src/index.ts:93-126 | the loop finds the first candidate accepted, or the last one tried, or throws |
| `VrfProofs.TimesVanishes` | vrf/src/index.ts:46-67 | in a group of prime order a multiple vanishes if and only if the point does or the order divides the factor |
| `VrfProofs.PointRoundTrip` | vrf/src/index.ts:162-173 | decoding the compressed form gives the point back |
| `VrfProofs.PointFromString` | vrf/src/index.ts:162-173 | a compressed string that decodes is the encoding of its point |
| `VrfProofs.UncompressedRoundTrip` | vrf/src/index.ts:81 | the uncompressed form decodes to its point as well |
| `VrfProofs.ProofRoundTrip` | vrf/src/index.ts:61-66 | an encoded proof decodes to its three parts |
| `VrfProofs.ProofIsCanonical` | vrf/src/index.ts:198-213 | a proof that decodes is the encoding of its parts if and only if it is 162 lower-case digits |
| `VrfProofs.ProofDecodes` | vrf/src/index.ts:198-213 | a proof decodes if and only if its first 33 bytes are a point and its last 32 a number below the order, and to exactly these |
| `VrfProofs.HashedIsPoint` | vrf/src/index.ts:93-126 | hashing to the curve never gives the identity |
| `VrfProofs.CandidateIs` | vrf/src/index.ts:93-126 | a candidate is the point with an even y whose x is the hash of its input |
| `VrfProofs.HashFindsFirst` | vrf/src/index.ts:93-126 | hashing to the curve gives the first of 256 candidates that decodes with no coordinate 0, or the last one, and throws if that does not decode |
| `VrfProofs.InputsAreFramed` | vrf/src/index.ts:69-126 | suite, purpose 1, 2 or 3, payload, 0: what is hashed for candidate, challenge and output |
| `VrfProofs.InputsAreSeparate` | vrf/src/index.ts:69-126 | inputs for different purposes never coincide; a candidate's input tells key, alpha and counter |
| `VrfProofs.ChallengeBinds` | vrf/src/index.ts:184-196 | the string hashed for a challenge tells all points under it, in order |
| `VrfProofs.ChallengeExists` | vrf/src/index.ts:184-196 | the challenge exists if and only if no point is the identity, and is the first 16 bytes of the hash |
| `VrfProofs.ResponseCancels` | vrf/src/index.ts:59-88 | s a - c (x a) = k a for s = k + c x modulo the order |
| `VrfProofs.ProveSucceeds` | vrf/src/index.ts:46-67 | a proof is given if and only if the order divides neither secret nor nonce and hashing succeeds; it decodes to x H, the challenge and s |
| `VrfProofs.KeyEncodingsMatch` | vrf/src/index.ts:215-228 | both encodings of the matching public key decode to it |
| `VrfProofs.DecodableHashes` | vrf/src/index.ts:69-78 | proof_to_hash succeeds if and only if the proof decodes |
| `VrfProofs.VerifyAcceptsProof` | vrf/src/index.ts:80-91 | every proof given is VALID under the matching key and yields proof_to_hash of it |
| `VrfProofs.VerifyDecides` | vrf/src/index.ts:80-91 | verification accepts if and only if key, proof and alpha decode and the challenge recomputed from the opened points is the proof's, and is INVALID if and only if the key decodes and the proof does not, or that challenge differs |
| `VrfProofs.OutputIsHashOfGamma` | vrf/src/index.ts:69-78 | the output is the hash of Gamma alone |
| `VrfProofs.WrongGammaHasOneChallenge` | vrf/src/index.ts:80-91 | if a proof with Gamma other than x H is accepted, the points it opens can be opened for no other challenge modulo the order |
| `VrfProofs.RequestSucceeds` | vrf/src/index.ts:254-269 | processVrfRequest never reports its proof invalid, and answers if and only if s is not 0 and the challenge no multiple of the order |
| `VrfProofs.FastReproducesChallenge` | vrf/src/index.ts:233-269 | hashing the points read back from the emitted coordinates reproduces the challenge, and they are the points full verification computes from the emitted s and challenge |
| `VrfProofs.SpecialSoundness` | vrf/src/index.ts:84-90 | two answers that open one pair of points U, V for challenges different modulo the order force Gamma = x H |
| `VrfToyCurve.LawsAreConsistent` | vrf/src/index.ts:147-160 | a seven-point curve meets every assumed law |
| `VrfToyCurve.ToyRequestThrows` | vrf/src/index.ts:254-269 | on it, for every secret, matching key and alpha, there is a proof and the request throws |
| `VrfToyCurve.ToyRejects` | vrf/src/index.ts:80-91 | on it, a proof with a wrong Gamma that is INVALID |
| `LocalAggregator.DeleteFunc` | node/pkg/fetcher/localaggregator.go:118-181 | the in-place deletion leaves the survivors in front and the rest of the array untouched |
| `LocalAggregator.RemoveFarthest` | node/pkg/fetcher/localaggregator.go:150-180 | at most the limit of listed values is taken, farthest first |
| `LocalAggregator.FilterOutliers` | node/pkg/fetcher/localaggregator.go:118-181 | the array's front is the feeds without the chosen extreme and mild values |
| `LocalAggregator.SurvivorsInOrder` | node/pkg/fetcher/localaggregator.go:118-181 | survivors are the input at increasing positions, with no value listed |
| `LocalAggregator.NoOtherIsGone` | node/pkg/fetcher/localaggregator.go:118-181 | every feed whose value is not listed survives |
| `LocalAggregator.RemovalBound` | node/pkg/fetcher/localaggregator.go:118-181 | at most a quarter of the feeds goes if and only if no value of either class lies on both sides of the cut through it |
| `LocalAggregator.DistinctValuesBound` | node/pkg/fetcher/localaggregator.go:118-181 | with distinct values at most a quarter of the feeds goes |
| `LocalAggregator.RemovalIsFair` | node/pkg/fetcher/localaggregator.go:118-181 | only outliers go, no mild one while an extreme stays, and none farther stays in the same class |
| `LocalAggregator.TiesExceedTheBound` | node/pkg/fetcher/localaggregator.go:118-181 | twelve feeds with ties of which four go |
| `LocalAggregator.PartitionFeeds` | node/pkg/fetcher/localaggregator.go:183-196 | the loop splits by positive volume, keeping order |
| `LocalAggregator.CalculateVWAP` | node/pkg/fetcher/utils.go:40-59 | the loop computes turnover over volume, an error for zero volume, 0 for no feeds |
| `LocalAggregator.VwapWithin` | node/pkg/fetcher/utils.go:40-59 | for positive volumes there is no error and the average lies within the price bounds |
| `LocalAggregator.LocalPriceInRange` | node/pkg/fetcher/localaggregator.go:78-116 | for positive prices the pipeline never errs, gives 0 and streams nothing exactly when the filter leaves no feed, and otherwise streams a price within the bounds |
| `LocalAggregator.SomeFeedIsUsed` | node/pkg/fetcher/localaggregator.go:118-181 | some feed is left for FX pairs, for one to four feeds, for distinct values, and whenever some value is no outlier |
| `LocalPrice.RemovalIsEnough` | node/pkg/fetcher/localaggregator.go:118-181 | at least a quarter of the feeds, rounded down, goes, or all outliers if they are fewer |
| `LocalPrice.PartitionIsExact` | node/pkg/fetcher/localaggregator.go:183-196 | every feed goes to one side with its multiplicity, by positive volume |
| `LocalPrice.VwapBalances` | node/pkg/fetcher/utils.go:40-59 | the average is the one price at which the trades leave neither surplus nor loss |
| `LocalPrice.PriceIsMix` | node/pkg/fetcher/localaggregator.go:94-205 | nineteen twentieths of the balancing price and one twentieth of the median by rank where both kinds of feeds are present, else the one that is |
| `LocalPrice.FxPriceIsMedian` | node/pkg/fetcher/localaggregator.go:85-92 | FX pairs: the median by rank of all feeds |
| `LocalPrice.StreamedIsTruncated` | node/pkg/fetcher/localaggregator.go:207-228 | what is streamed is the price truncated toward zero, and only a zero price is not |
| `NoncePool.NonceManager.constructor` | node/pkg/chain/noncemanagerv2/noncemanagerv2.go:23-47 | a full pool from the account's nonce on |
| `NoncePool.NonceManager.GetNonce` | node/pkg/chain/noncemanagerv2/noncemanagerv2.go:49-59 | returns the head; the pool stays contiguous with at least nine entries; no channel operation blocks |
| `NoncePool.NonceManager.FillPool` | node/pkg/chain/noncemanagerv2/noncemanagerv2.go:78-85 | a fresh full pool from the old head on |
| `NoncePool.NonceManager.Reset` | node/pkg/chain/noncemanagerv2/noncemanagerv2.go:61-76 | a full pool from the new nonce on, unchanged if the call failed |
| `NoncePool.NonceManager.FlushPool` | node/pkg/chain/noncemanagerv2/noncemanagerv2.go:87-91 | an empty channel, without blocking |
| `NoncePool.TakenStaysContiguous` | node/pkg/chain/noncemanagerv2/noncemanagerv2.go:49-59 | a call keeps a contiguous run that starts one higher |
| `NoncePool.PoolIsCounter` | node/pkg/chain/noncemanagerv2/noncemanagerv2.go:49-85 | after k calls since the last reset the next nonce is base + k modulo 2^64, for every k |
| `ReporterJob.ReporterState.GetAndIncrementNonce` | core/src/reporter/state.ts:284-292 | returns the counter and raises it by one; for an address never added the result and its entry are no number |
| `ReporterJob.ReporterState.Report` | core/src/reporter/reporter.ts:15-88 | for every outcome of its sends the retry loop sends, takes and throws as specified, and its sends and nonces are those its own steps log and take in the interleaved system; without a wallet it throws; its queue may run it again only if it throws |
| `ReporterJob.ReporterState.Trial` | core/src/reporter/reporter.ts:34-84 | one trial in each of the three sending modes is one send step, and one renewal if the nonce expired |
| `ReporterJob.RestNonces` | core/src/reporter/reporter.ts:28-85 | an execution sends one to three times, first with its own nonce and after each expired one with the next of the counter, takes exactly one nonce per expired send, and stops early only on success or a throw |
| `ReporterJob.RestEnds` | core/src/reporter/reporter.ts:28-85 | an execution sends until a send succeeds or ends in an error of the fatal kind for its mode, at most three times, and throws exactly in the second case |
| `ReporterSafety.JobsStartTenTimes` | core/src/settings.ts:236-241 | a job is started at most ten times, and one that may still be started exactly ten times less what is left |
| `ReporterSafety.NoncesAreTakenOnce` | core/src/reporter/state.ts:284-292 | in every interleaving nonces that different jobs took between the same two restarts of a counter differ, held or sent, and lie below it |
| `ReporterSharing.JobsNeverShareNonces` | core/src/reporter/nonceManager.ts:13-28 | if no restart sets a counter at or below a number a job may still send to its address, sends by different jobs to it between restarts carry different numbers, and so do the numbers held, all below the counter |
| `ReporterSharing.RestartIsSafe` | core/src/reporter/state.ts:213-276 | after a run that was careful so far a restart at n is safe until the next one if and only if no job may still send a number at or above n: one about to be sent, or the own number of a job that its queue may yet start |
| `ReporterSharing.CarelessRestartShares` | core/src/reporter/state.ts:213-276 | from every reachable state a restart at or below such a number goes on to two jobs sending one number |
| `ReporterSharing.RefreshSharesANonce` | core/src/reporter/state.ts:213-276 | the shortest such run: a job queued with n, a refresh to n |
| `ReporterSafety.SwitchesToFreshNonce` | core/src/reporter/reporter.ts:38-84 | an execution changes its nonce only after an expired one and only to one nobody took |
| `ReporterSafety.AtMostThreeSends` | core/src/reporter/reporter.ts:28-85 | in every run each execution sends at most three times |
| `SignPreimage.CopyToEnd` | node/pkg/chain/utils/utils.go:587-591 | the buffer is zeros followed by the bytes |
| `SignPreimage.RightAligned` | node/pkg/chain/utils/utils.go:584-591 | the buffer is the 32-byte big-endian magnitude |
| `SignPreimage.BuildPreimage` | node/pkg/chain/utils/utils.go:583-597 | the first 32 bytes read as the magnitude of the value, the next 32 as that of the timestamp, and the rest is the feed hash |
| `SignPreimage.PreimageDetermines` | node/pkg/chain/utils/utils.go:583-597 | two preimages are equal if and only if magnitudes and feed hashes are |
| `SignPreimage.PreimageIsUnambiguous` | node/pkg/chain/utils/utils.go:583-597 | for non-negative inputs the 96 bytes determine value, timestamp and feed hash |
| `SignPreimage.SignIsLost` | node/pkg/chain/utils/utils.go:587-591 | a value and its opposite have the same preimage |
| `ReportBatches.CutBatches` | node/pkg/reporter/reporter.go:111-135 | the four columns are cut together into the pieces of the rows: entry k of each column of batch i is that of row 50 i + k |
| `ReportBatches.PiecesAreExact` | node/pkg/reporter/reporter.go:128-134 | pieces join back to the rows, hold 1 to 50 rows each, and are as few as possible |
| `ReportBatches.WaitEnds` | node/pkg/reporter/reporter.go:127-145 | when no goroutine can move, all are done if and only if at most five submissions failed |
| `ReportBatches.WaitIsFinite` | node/pkg/reporter/reporter.go:127-145 | every run of the goroutines is finite |
| `ReportBatches.LargeReportsCanHang` | node/pkg/reporter/reporter.go:127-145 | beyond 250 rows there is a run that never ends |
| `ReportBatches.AlwaysEnds` | node/pkg/reporter/reporter.go:127-145 | the wait ends whatever happens if and only if the report has at most 250 rows |

## Left out

- libp2p, JSON, Redis, Postgres and BullMQ themselves: message bags, tables and queues with the semantics above stand for them.
- Clocks, tickers, cooldown lengths and jitter: a timer may fire at any time; the cooldown check of an election is a parameter.
- Restart of an aggregator or raft process: the round tables, locks and votes are in memory, and the runs are those of one process lifetime.
- Raft's leader loop that is busy with its job when its resign channel is closed: the loop's ticker branches need the channel open.
- Classical Raft election safety and log replication: the first is false here, and there is no log.
- Signing, Keccak, SHA-256, HMAC, RFC 6979 nonces and curve arithmetic: parameters, or laws an abstract curve has to meet; how the elliptic library treats an x coordinate above the field size is not modelled beyond section 2.3.4 of SEC 1.
- LocalAggregator.FilterOutliers: takes what `stats.QuartileOutliers` and the sort by distance give as parameters; the results about it ask for disjoint sub-multisets of the values, farthest first.
- Float rounding: prices, volumes and ratios are reals.
- Several contracts under one listener service: the tables are keyed by service and block only.
- State.remove and State.clear: they stop [latest] jobs and add no block bookkeeping.
- Reporter jobs for an address that was never added, whose nonce is no number: the interleaved system has none.
- Restart of a reporter process, which loses its counters and running executions and refreshes every address: the runs are those of one process lifetime.
- Retries of a reporter job that its queue runs twice at once after a stall: one execution of a job at a time.
- NoncePool.NonceManager.constructor: takes the account's nonce as given; the checks of `New` for a missing client or an empty wallet are not modelled.
- Merging of the errors and the nonce refresh after a report.
- Admin, API, CLI, monitoring and deployment code: create-read-update-delete handlers and plumbing without invariants of their own.
