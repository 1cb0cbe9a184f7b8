# Single activation in pyleans: a verified model

pyleans is a cluster of *silos* that host virtual actors, *grains*. A grain must have at most one
live activation in the cluster. That contract rests on a shared membership table, on suspicion votes
that declare a silo dead, on a consistent hash ring that assigns every grain an owner silo, and on
the owners' partitions of the grain directory. This project models those parts in Dafny 4.11 and
proves what they keep over every run.

`dafny verify dfyconfig.toml` checks everything.

## What is modelled

- **Identity** (`Text`, `Identity`). `silo_id`, its parser and its order; everything that breaks ties
  by silo id rests on `silo_id` being injective.
- **Membership table** (`MembershipTable`). The in-memory provider as an object whose methods equal
  functions on a table value; etags are stamps of the table's version.
- **Voting** (`Voting`, `FailureDetector`, `VoteDrives`). Any number of detectors, heartbeats, registrations,
  shutdowns and deletions interleave: reading a row, the indirect probe and the compare-and-swap write
  are separate steps of a task, and a run is any sequence of steps. `Detector` is the object with its
  miss counters and its bounded vote drive; `VoteDrives` shows that drives of such objects, among any
  steps of the others, are runs of the interleaved system, so that what holds in every run holds of
  the table an object leaves.
- **Hash ring, arcs, rebuild merge** (`Sequences`, `HashRing`, `Arcs`, `RebuildMerge`). The hash is
  any function into 64-bit values, collisions included.
- **Directory** (`Directory`, `DirectoryNode`, `Rebuild`, `DirectoryCluster`, `EntryPlaces`, `SingleActivation`,
  `RingChange`, `CallProgress`). One silo's partition as an object; the cluster as a state machine of silos, requests
  (issue, serve and return are separate steps), handoffs in flight, ring changes, rebuilds, and
  silos that start, stop or crash.
  `Next` is what the code does in every state. `Allowed` is the discipline under which the directory
  is one map: requests are issued and served only while every silo routes alike and nothing is in
  flight; a handoff is delivered once its receiver has switched, and is not lost; the next change
  begins when the previous one's handoffs have arrived; and only a silo outside the membership that
  holds nothing stops. `SingleActivation` says what finished calls may have been answered, and
  `CallProgress` that calls do finish. The results about epochs (`EpochsIncrease`, `NewerIffCounted`, `HeldIsOlder`)
  need no discipline at all.
- **Directory cache** (`DirectoryCache`). The single-silo directory, the cache over it as an ordered
  dictionary, and a reference description of the cache by time of last use.
- **Pending requests** (`Pending`). Futures, timers and the two tables over any run, with 64-bit
  cyclic ids; the objects `Future`, `TimerHandle` and `PendingRequests`.
- **Wire codec** (`Wire`). The encoder fills a buffer, the reader consumes a stream; both equal
  functions that are proved inverse to each other.

The usual shape is: a method or a step does what the source does, its `ensures` equates it with a
function on values, and the lemmas below are about that function or about runs of steps.

## Where the code and its documentation differ

- `Arc` is documented as closed-open; `contains` is open at the start and closed at the end. The model
  follows the code.
- `compute_new_arcs` is documented to return what the silo newly owns. It judges an arc by the old
  owner of its end, so a silo on both rings gets nothing unless one of its virtual nodes was shadowed
  by a colliding one (`StayingSiloGetsNoArcs`, both directions; `GainedKeyIsMissed` is a concrete
  ring). On a ring with a single position the arcs cover no key at all (`ArcsCoverIffTwoPositions`).
- `from_silo_id` is documented not to support hosts that contain colons; it does
  (`FromSiloIdInvertsSiloId`).
- `_vote_or_declare` is documented to return True if DEAD was written; it also does if the row was
  found DEAD.
- `activation_epoch` lets a caller tell a new activation from an old one exactly when the creating
  silo's counter has reached the old epoch (`NewerIffCounted`). That is so for everything the silo
  created (`EpochsIncrease`) and for everything it ever held, entries handed over to it included
  (`HeldIsOlder`). The case that fails is an entry removed before its grain changes owner: the new owner
  never hears of it and may create the very same entry again, epoch included (`SameEntryTwice`).
- DEAD stays exactly until silo start-up or shut-down code writes the row successfully
  (`DeadStaysIff`, `DeadUntilOverwritten`); `DeadCanRevert` is such a run, for every quorum.
- `on_membership_changed` is documented to schedule a rebuild. A silo starts on the ring of itself and
  always counts itself as active (src/pyleans/pyleans/server/silo.py:136-140 and 453-459), so it is on
  both rings at every change, and no rebuild is asked for, whether it joins or stays and whatever it
  gained, unless one of its virtual nodes was shadowed by a colliding one (`RebuildNeedsAShadow`).
- A rebuild installs what was held when it was asked for, so an entry unregistered meanwhile comes back
  (`RebuildUndoesUnregister`, both directions).
- The directory is documented as eventually consistent under membership change: `TwoHoldersInMixedViews`
  is a run, outside the discipline, in which two silos hold the same grain.
- `PendingRequests` expires by id. When an id comes round to a request that is still live and has a
  timer, that timer times out the new request (`OvertakenTimerHitsTheNewRequest`), and stays armed
  outside the table if the new request has one of its own. `ArmedTimersAreKnown` gives the exact
  conditions, and `OvertakingHappens` is a run that gets there.

## Model

| member | source | states |
|---|---|---|
| Identity.FromSiloIdInvertsSiloId | src/pyleans/pyleans/identity.py:46-74 | Parsing a silo id gives back the address, for every host, port and epoch |
| Identity.FromSiloIdAccepts | src/pyleans/pyleans/identity.py:60-74 | The parser accepts a string and gives an address if and only if the string is the host, a port numeral and an epoch numeral joined by colons |
| Identity.SiloIdInjective | src/pyleans/pyleans/identity.py:46-53 | Two addresses with one silo id are one address |
| Identity.SiloLessTotal | src/pyleans/pyleans/identity.py:76-78 | The order by silo id is irreflexive, asymmetric and total on addresses |
| Identity.SiloLessTrans | src/pyleans/pyleans/identity.py:76-78 | The order by silo id is transitive |
| Identity.SiloLessIsLexicographic | src/pyleans/pyleans/identity.py:76-78 | One address is below another if and only if its id has the smaller character at the first difference or is a beginning of the other id |
| MembershipTable.PerformEvolves | src/pyleans/pyleans/testing/membership_fake.py:32-81 | A write keeps the table well formed, touches its target row only and stamps it with a version never used before |
| MembershipTable.NoAba | src/pyleans/pyleans/testing/membership_fake.py:32-81 | Over any run, deletes and re-creations included, a (silo id, etag) pair never names two different rows |
| MembershipTable.SuccessReplacesWhatWasRead | src/pyleans/pyleans/testing/membership_fake.py:32-69 | A write that presents the etag its caller read and succeeds replaces exactly that row, or creates where none was read |
| MembershipTable.SucceedsIffCurrent | src/pyleans/pyleans/testing/membership_fake.py:32-81 | A call succeeds exactly when it presents the stored etag or deletes what is not there; it fails with NotFound exactly when the row is gone and with Stale exactly when another is there, and then changes nothing |
| MembershipTable.FailuresTellTheTruth | src/pyleans/pyleans/testing/membership_fake.py:32-81 | Over any run, a call that presents what its caller read reports Stale exactly if another row stands there now, NotFound exactly if it is gone, and otherwise succeeds |
| MembershipTable.ReadsBack | src/pyleans/pyleans/testing/membership_fake.py:44-81 | What a read finds after a successful call: the row written, the row with the vote at the end, or nothing, under the next version; and what counts as a heartbeat |
| MembershipTable.InMemoryMembershipProvider.ReadAll | src/pyleans/pyleans/testing/membership_fake.py:26-30 | The table version and every row, once each |
| MembershipTable.InMemoryMembershipProvider.ReadSilo | src/pyleans/pyleans/providers/membership.py:76-87 | The scan of the snapshot finds the row stored under the id, or nothing |
| MembershipTable.InMemoryMembershipProvider.TryUpdateSilo | src/pyleans/pyleans/testing/membership_fake.py:32-49 | The method is the specified create-or-swap, result and table; `SucceedsIffCurrent`, `FailuresTellTheTruth` and `ReadsBack` say what that is |
| MembershipTable.InMemoryMembershipProvider.TryAddSuspicionVote | src/pyleans/pyleans/testing/membership_fake.py:51-69 | Appends one vote under the expected etag, or reports NotFound or Stale |
| MembershipTable.InMemoryMembershipProvider.TryDeleteSilo | src/pyleans/pyleans/testing/membership_fake.py:71-81 | Deletes under the row's etag; a missing row is no error |
| Voting.DeadCarriesQuorum | src/pyleans/pyleans/cluster/failure_detector.py:402-456 | In every interleaving a DEAD row carries votes of at least the configured number of distinct silos, none older than the expiration at the deciding vote |
| Voting.VotesOfOneSiloAreSpaced | src/pyleans/pyleans/cluster/failure_detector.py:411-421 | In every reachable table two votes of one silo on a row are more than the expiration apart in list order, whatever the clocks show |
| Voting.WriteReplacesWhatItRead | src/pyleans/pyleans/testing/membership_fake.py:32-81 | Whatever ran in between, a task's successful write replaces the very row it read; only a delete may find it gone |
| Voting.UndisturbedWrite | src/pyleans/pyleans/cluster/membership_agent.py:217-231 | Undisturbed, a heartbeat stamps both liveness times of its row and leaves the rest, a shutdown sets the status, a registration writes a fresh ACTIVE row, a deletion removes it, and no other row changes |
| Voting.VotesOnlyGrow | src/pyleans/pyleans/cluster/membership_agent.py:217-231 | Until silo code writes a row successfully, its votes only grow at the end and DEAD stays |
| Voting.DeadStaysIff | src/pyleans/pyleans/server/silo.py:530-575 | In every run a DEAD row is DEAD after the next step if and only if that step is not a successful write to it by silo start-up or shut-down code |
| Voting.DeadUntilOverwritten | src/pyleans/pyleans/server/silo.py:530-575 | A row DEAD at some point of a run is DEAD at every later point if and only if no such write happens |
| Voting.DeadCanRevert | src/pyleans/pyleans/server/silo.py:530-544 | For every quorum, a run in which enough distinct voters declare a silo DEAD and its own shutdown overwrites that |
| FailureDetector.AttemptFacts | src/pyleans/pyleans/cluster/failure_detector.py:402-452 | An attempt returns True only if the row was DEAD when it read or after it wrote, and a write that lands extends the row it read by one vote of this silo |
| FailureDetector.AttemptOutcome | src/pyleans/pyleans/cluster/failure_detector.py:402-452 | Whatever others write: an attempt writes exactly when the table answers and it has a vote to cast; the write lands exactly when the row is still the one read; SiloNotFound exactly when it is gone, TableStale exactly when it is another; and the row left is DEAD exactly when the vote completes the quorum and the probe finds nobody |
| FailureDetector.UndisturbedAttempt | src/pyleans/pyleans/cluster/failure_detector.py:402-456 | With nobody else writing, an attempt adds this silo's vote unless a fresh one is there, and declares DEAD exactly when that completes the quorum of fresh distinct voters and the probe finds nobody |
| FailureDetector.UndisturbedDriveVotes | src/pyleans/pyleans/cluster/failure_detector.py:368-400 | An undisturbed drive takes one attempt and leaves a fresh vote of this silo on a live row |
| FailureDetector.AttemptIsATask | src/pyleans/pyleans/cluster/failure_detector.py:402-452 | An attempt that writes makes the same call, with the same effect, as a task of the interleaved system |
| VoteDrives.AttemptsAreRuns | src/pyleans/pyleans/cluster/failure_detector.py:368-452 | Any number of attempts by detector objects, among any steps of the others, leave the table of a run of the interleaved system |
| VoteDrives.DrivenDeathsCarryQuorum | src/pyleans/pyleans/cluster/failure_detector.py:368-452 | A row that is DEAD in the table a vote drive of the object leaves carries its quorum of fresh distinct voters |
| FailureDetector.Detector.BumpMissCount | src/pyleans/pyleans/cluster/failure_detector.py:230-237 | A lost connection counts as one miss, cut down to the limit |
| FailureDetector.Detector.AttemptVote | src/pyleans/pyleans/cluster/failure_detector.py:402-452 | The object's attempt against the shared table is the specified one; the peer's misses are forgotten exactly when the row read is gone |
| FailureDetector.Detector.VoteOrDeclare | src/pyleans/pyleans/cluster/failure_detector.py:368-400 | At most three attempts, another one exactly after a stale write; at most one write that lands and nothing after it; True if and only if the last attempt reported a death, and then the row was DEAD in the table meanwhile |
| FailureDetector.Detector.OnProbeResult | src/pyleans/pyleans/cluster/failure_detector.py:335-366 | The peer's health after the probe; votes are driven if and only if the probe failed and the misses reach the limit, True if and only if the last attempt reported a death; undisturbed, a failed probe at the limit leaves this silo's fresh vote on a live row |
| HashRing.RingContents | src/pyleans/pyleans/cluster/hash_ring.py:50-78 | Each distinct silo is on the ring once, sorted, with exactly its virtual nodes |
| HashRing.VnodeTextsDiffer | src/pyleans/pyleans/cluster/identity.py:62-69 | Different virtual nodes are hashed from different texts |
| HashRing.GrainTextsDiffer | src/pyleans/pyleans/cluster/identity.py:57-59 | Different grains are hashed from different texts as long as no type name has a '/' |
| HashRing.GrainTextsCollideIff | src/pyleans/pyleans/cluster/identity.py:57-59 | Grains of two different types share a text for some keys if and only if one type followed by '/' begins the other; grains of one type never do |
| HashRing.OwnerIsNearest | src/pyleans/pyleans/cluster/hash_ring.py:80-92 | Sorting and bisection return exactly the silo of the virtual node at least clockwise distance modulo 2^64, ties going to the least silo id |
| HashRing.OwnerExists | src/pyleans/pyleans/cluster/hash_ring.py:80-92 | Every key has an owner among the silos unless there are none |
| HashRing.OwnerDependsOnSetOnly | src/pyleans/pyleans/cluster/hash_ring.py:57-92 | Order and repetition of the silo list do not matter |
| HashRing.RemovalMovesOnlyItsKeys | src/pyleans/pyleans/cluster/hash_ring.py:57-92 | When a silo leaves, only its keys change owner, even with colliding virtual nodes |
| HashRing.AdditionMovesKeysOnlyToIt | src/pyleans/pyleans/cluster/hash_ring.py:57-92 | When a silo joins, keys move only to it |
| HashRing.BuildRing | src/pyleans/pyleans/cluster/hash_ring.py:50-78 | The constructor's loops build the specified ring; fewer than one virtual node per silo is an error |
| HashRing.WalkSuccessors | src/pyleans/pyleans/cluster/hash_ring.py:94-118 | The walk around the ring with its seen set computes the successors, in every edge case |
| HashRing.FirstVnodeIndex | src/pyleans/pyleans/cluster/hash_ring.py:120-124 | The scan finds the silo's first virtual node, or nothing |
| HashRing.SuccessorsAreNextDistinct | src/pyleans/pyleans/cluster/hash_ring.py:94-118 | Exactly min(count, n - 1) distinct other silos in order of first clockwise appearance, none skipped |
| HashRing.TurnIsClockwise | src/pyleans/pyleans/cluster/hash_ring.py:94-118 | The walk meets the positions clockwise, from the one after the silo's first |
| HashRing.StrangersHaveNoSuccessors | src/pyleans/pyleans/cluster/hash_ring.py:94-118 | A silo that is not on the ring, or a count below one, gives none |
| HashRing.MoreSuccessorsExtend | src/pyleans/pyleans/cluster/hash_ring.py:94-118 | The successors for a count begin those for the next |
| Arcs.ComputeNewArcs | src/pyleans/pyleans/cluster/directory_rebuild.py:173-199 | The loop over the positions returns the specified arcs in order |
| Arcs.ArcHoldsTheKeysOfItsEnd | src/pyleans/pyleans/cluster/directory_messages.py:82-85 | With two different positions on the ring, an arc contains exactly the keys that bisection maps to its end |
| Arcs.ArcsCoverIffTwoPositions | src/pyleans/pyleans/cluster/directory_rebuild.py:184-199 | The arcs cover the circle if and only if the ring has two different positions |
| Arcs.NewArcsCover | src/pyleans/pyleans/cluster/directory_rebuild.py:184-204 | For any old ring, a key is in exactly one returned arc if the silo owns it now and did not own its arc's end, and in none otherwise |
| Arcs.FreshArcsPartitionTheCircle | src/pyleans/pyleans/cluster/directory_rebuild.py:184-199 | With no old ring every key is in exactly one arc, and that arc is its owner's |
| Arcs.JoiningSiloGetsItsKeys | src/pyleans/pyleans/cluster/directory_rebuild.py:184-204 | A silo that was not on the old ring gets arcs for exactly the keys it owns |
| Arcs.OwnsItsOwnPositions | src/pyleans/pyleans/cluster/hash_ring.py:80-92 | A silo owns its virtual node's position if and only if no smaller silo id collides with it |
| Arcs.StayingSiloGetsNoArcs | src/pyleans/pyleans/cluster/directory_rebuild.py:194-204 | A silo on both rings gets no arcs if and only if none of its virtual nodes was shadowed on the old ring |
| Arcs.GainedKeyIsMissed | src/pyleans/pyleans/cluster/directory_rebuild.py:194-204 | A ring of three silos where a key gained by a staying silo is in no returned arc |
| RebuildMerge.MergeRebuildCandidates | src/pyleans/pyleans/cluster/directory_rebuild.py:207-245 | The loop computes the specified fold of winners and losers |
| RebuildMerge.WinnerIsLeast | src/pyleans/pyleans/cluster/directory_rebuild.py:207-245 | Per grain the (epoch, silo id)-least reported entry wins, and grains nobody reported are not installed |
| RebuildMerge.MergeIgnoresOrder | src/pyleans/pyleans/cluster/directory_rebuild.py:207-245 | Winners do not depend on order or repetition of the answers |
| RebuildMerge.ExactlyTheLosersStandDown | src/pyleans/pyleans/cluster/directory_rebuild.py:227-245 | Every loser was reported and is strictly worse than its winner; every silo that reported a grain, other than the winner's, is among the losers |
| RebuildMerge.StepTellsTheWorse | src/pyleans/pyleans/cluster/directory_rebuild.py:227-245 | Meeting an entry tells the worse of the two to stand down, and only it, unless it is a later one of the same silo |
| DirectoryNode.GrainDirectory.RegisterLocal | src/pyleans/pyleans/cluster/distributed_directory.py:228-236 | Returns the entry held or creates one with the next epoch |
| DirectoryNode.GrainDirectory.UnregisterLocal | src/pyleans/pyleans/cluster/distributed_directory.py:238-252 | Removes the entry only for the silo it names |
| DirectoryNode.GrainDirectory.ResolveOrActivateLocal | src/pyleans/pyleans/cluster/distributed_directory.py:254-280 | Returns the entry held, or places one on the strategy's pick, or fails when there are no candidates |
| DirectoryNode.CandidatesAreActive | src/pyleans/pyleans/cluster/distributed_directory.py:254-280 | Placement picks among the active silos whenever there are any, else among those on the ring; with none at all, and only then, a grain that is not held cannot be resolved |
| DirectoryNode.GrainDirectory.OnMembershipChanged | src/pyleans/pyleans/cluster/distributed_directory.py:168-194 | Takes the new ring, gives up exactly the entries owned elsewhere with one handoff each to the new owner, and asks for a rebuild exactly when there are new arcs and peers |
| DirectoryNode.ChangeSplits | src/pyleans/pyleans/cluster/distributed_directory.py:168-187 | A membership change keeps each entry or gives it up, as it was: it is kept exactly if this silo owns it on the new ring, and goes to its new owner otherwise; no ring is an error exactly if anything is held |
| DirectoryNode.RebuildIsAskedFor | src/pyleans/pyleans/cluster/distributed_directory.py:183-194 | A rebuild is asked for exactly when there are new arcs and another active silo, with those arcs, all the others, and what is still held |
| DirectoryNode.StayingSiloAsksForNoRebuild | src/pyleans/pyleans/cluster/distributed_directory.py:183-194 | A silo on its old ring and in the new membership asks for no rebuild if and only if none of its virtual nodes was shadowed on the old ring or it has no peers |
| RingChange.RebuildNeedsAShadow | src/pyleans/pyleans/server/silo.py:453-459 | In every run in which silos count themselves as active, joining or staying, a rebuild is asked for if and only if a virtual node was shadowed on the ring the silo had and it has peers |
| DirectoryNode.GrainDirectory.CollectHandoffs | src/pyleans/pyleans/cluster/distributed_directory.py:174-182 | The scan of the partition finds exactly what no longer belongs here |
| DirectoryNode.GrainDirectory.ReceiveHandoff | src/pyleans/pyleans/cluster/distributed_directory.py:473-498 | A handoff is an error on an empty ring, and otherwise ignored, installed, or settled by the lower epoch, with the loser to notify |
| DirectoryNode.GrainDirectory.ApplyRebuildEntries | src/pyleans/pyleans/cluster/distributed_directory.py:376-380 | The loop installs the merged entries as specified; `RebuildInstalls` says what that leaves |
| DirectoryNode.RebuildInstalls | src/pyleans/pyleans/cluster/distributed_directory.py:376-380 | With one merged entry per grain, each is held afterwards, every other grain keeps what it had, and the counter is the maximum of the old one and the merged epochs |
| DirectoryNode.RebuildRecovers | src/pyleans/pyleans/cluster/directory_rebuild.py:207-245 | Installing the winners leaves the least reported entry of every reported grain, and changes no other grain |
| Rebuild.AnswersHold | src/pyleans/pyleans/cluster/distributed_directory.py:382-397 | The answers a rebuild collects are exactly the activations in its arcs on the peers whose query did not fail |
| Rebuild.AnswerRebuildQuery | src/pyleans/pyleans/cluster/distributed_directory.py:382-397 | A query is answered with the activations in the arcs, or with none if nobody can tell |
| Rebuild.RunRebuild | src/pyleans/pyleans/cluster/directory_rebuild.py:116-163 | The object ends as the specified rebuild says, with the losers to notify |
| Rebuild.RebuildRecoversActivations | src/pyleans/pyleans/cluster/directory_rebuild.py:116-163 | Every activation in the arcs on a peer that answered, and every entry held when the rebuild was asked for, ends with its grain in the partition under the least of them, and its silo is the one recorded or is told to stand down; nothing else comes in and nothing goes |
| Rebuild.JoinerAsksForItsGrains | src/pyleans/pyleans/cluster/distributed_directory.py:183-194 | A silo that comes onto the ring asks for exactly the grains it owns there |
| Rebuild.RebuildUndoesUnregister | src/pyleans/pyleans/cluster/distributed_directory.py:183-194 | An entry unregistered while a rebuild is under way is back afterwards if and only if the rebuild runs and its grain was held when it was asked for or is reported by a peer |
| DirectoryNode.CreatedIsNewest | src/pyleans/pyleans/cluster/distributed_directory.py:228-273 | A created entry has the next epoch and is newer than every entry held, and the counter moves to its epoch |
| DirectoryNode.EpochsStayDominated | src/pyleans/pyleans/cluster/distributed_directory.py:228-273 | No operation lowers the counter or lets an entry overtake it |
| DirectoryNode.HandoffsFrame | src/pyleans/pyleans/cluster/distributed_directory.py:473-498 | Handoffs of one grain touch no other grain |
| DirectoryNode.HandoffsConserve | src/pyleans/pyleans/cluster/distributed_directory.py:473-498 | After any handoffs of a grain to its owner, what is retained plus what is told to stand down is, as a multiset, what was held plus what was delivered |
| DirectoryNode.HandoffsRetainLowest | src/pyleans/pyleans/cluster/distributed_directory.py:484-496 | What is retained is the first arrival among those with the least epoch |
| DirectoryNode.StrayHandoffIsDropped | src/pyleans/pyleans/cluster/distributed_directory.py:473-483 | A handoff to a silo that does not own the grain changes nothing and tells nobody |
| DirectoryCluster.EpochsIncrease | src/pyleans/pyleans/cluster/directory.py:23-32 | In every run, with any mixture of views, losses and rebuilds, a silo's later creation has the higher epoch and no entry held is ahead of its holder's counter |
| DirectoryCluster.NewerIffCounted | src/pyleans/pyleans/cluster/distributed_directory.py:228-273 | In every run a new entry's epoch is above another entry's if and only if that one is not ahead of the creating silo's counter before the call |
| DirectoryCluster.HeldIsOlder | src/pyleans/pyleans/cluster/distributed_directory.py:473-498 | In every run whatever a silo ever held, handed-over and rebuilt entries included, is older than anything it creates later |
| DirectoryCluster.CounterIsHighestHeld | src/pyleans/pyleans/cluster/distributed_directory.py:473-498 | In every run a living silo's counter is exactly the highest epoch it ever held, or 0 |
| EntryPlaces.ServeAtIsLegal | src/pyleans/pyleans/cluster/distributed_directory.py:228-273 | Serving a call on a partition that agrees with the map about the grain answers as the map does and changes it as the map does |
| EntryPlaces.SettledAtOwner | src/pyleans/pyleans/cluster/distributed_directory.py:196-226 | When all silos route alike, exactly the owner of a grain holds its entry |
| SingleActivation.Linearizable | src/pyleans/pyleans/cluster/distributed_directory.py:196-438 | Every run under the discipline refines one register-if-absent map: each finished call took effect once between issue and return, in an order that respects non-overlapping calls |
| CallProgress.CallsFinish | src/pyleans/pyleans/cluster/distributed_directory.py:196-226 | From any settled point of an allowed run, with other requests outstanding, each of the four calls issued at any silo finishes in one step at its owner or in three elsewhere, with an answer that is right on the map before and the map after changed as it says |
| CallProgress.RequestsAreServed | src/pyleans/pyleans/cluster/distributed_directory.py:413-438 | In a settled cluster an outstanding request is answered when its owner is asked, as the map demands, a new entry having the next epoch of the owner and the silo named or picked |
| CallProgress.IssueReachesOwner | src/pyleans/pyleans/cluster/distributed_directory.py:196-226 | A call is over at once at its owner, and otherwise on its way there |
| CallProgress.GivenUpForGood | src/pyleans/pyleans/cluster/distributed_directory.py:325-338 | A call its caller gave up never gets an outcome later |
| CallProgress.StoppedForGood | src/pyleans/pyleans/identity.py:35-53 | A silo that stopped is gone with what it held, and its address never comes back |
| SingleActivation.SameEntryBetweenRemovals | src/pyleans/pyleans/cluster/distributed_directory.py:228-273 | Between two removals of a grain's entry all callers that register or resolve it get the same entry |
| SingleActivation.EveryEntryInOnePlace | src/pyleans/pyleans/cluster/distributed_directory.py:168-187 | At every moment each entry is in exactly one partition or one handoff in flight, and nothing else is |
| SingleActivation.SettledAtOwners | src/pyleans/pyleans/cluster/distributed_directory.py:196-226 | Whenever the run is settled, a silo holds exactly the entries it owns on the current ring |
| RingChange.RingChangeConserves | src/pyleans/pyleans/cluster/distributed_directory.py:168-187 | While silos switch and handoffs arrive in any order the global map is unchanged, and once all is settled each entry is at its new owner |
| RingChange.RingChangeCompletes | src/pyleans/pyleans/cluster/distributed_directory.py:473-498 | From any quiet moment, and from any point on the way, a new membership can be taken up: silos switching in any order and handoffs then arriving in any order end settled |
| RingChange.AnyOrderSettles | src/pyleans/pyleans/cluster/distributed_directory.py:473-498 | However switches and arrivals interleave, once every silo has switched and nothing is in flight the cluster is settled on the new ring with the same map |
| RingChange.SameEntryTwice | src/pyleans/pyleans/cluster/directory.py:23-32 | A run in which a grain gets the same entry, epoch included, before and after a change of owner |
| RingChange.TwoHoldersInMixedViews | src/pyleans/pyleans/cluster/distributed_directory.py:413-438 | A run outside the discipline in which two silos hold the same grain |
| DirectoryCache.LocalGrainDirectory.Register | src/pyleans/pyleans/server/local_directory.py:40-54 | The method is the specified register-if-absent; `LocalDirectoryIsAMap` says what that is |
| DirectoryCache.LocalGrainDirectory.ResolveOrActivate | src/pyleans/pyleans/server/local_directory.py:75-90 | The entry held, or a new one on the local silo, or the error for a non-local pick |
| DirectoryCache.LocalGrainDirectory.Unregister | src/pyleans/pyleans/server/local_directory.py:59-73 | Removes the entry only for the silo it names |
| DirectoryCache.LocalDirectoryIsAMap | src/pyleans/pyleans/server/local_directory.py:40-90 | In every run each operation answers and acts as the register-if-absent map of the directory port; an entry is refused exactly for a new grain placed elsewhere, is created with the next epoch, and the counter is the number of entries ever created |
| DirectoryCache.CacheIsTransparent | src/pyleans/pyleans/cluster/directory_cache.py:81-154 | For any operations, clock readings and invalidations, every answer and the directory itself are those of the bare directory, and the size limit holds |
| DirectoryCache.UsedIsCached | src/pyleans/pyleans/cluster/directory_cache.py:81-119 | Whatever entry a caller was given is cached afterwards: a hit keeps its expiry, a miss gets a full lifetime |
| DirectoryCache.PutKeeps | src/pyleans/pyleans/cluster/directory_cache.py:144-154 | Storing an entry keeps the cache coherent and within its size |
| DirectoryCache.EvictsLeastRecentlyUsed | src/pyleans/pyleans/cluster/directory_cache.py:144-154 | A grain gives up its place only in a full cache, and then callers got every other cached grain's entry more recently |
| DirectoryCache.CachedUntilExpiry | src/pyleans/pyleans/cluster/directory_cache.py:75-97 | In every run a cached grain is answered from the cache exactly until one lifetime after the last operation that stored it, however often it was hit since, with the answer that operation got; a grain not cached never is |
| DirectoryCache.InvalidationsDrop | src/pyleans/pyleans/cluster/directory_cache.py:99-142 | An unregistration or invalidation takes exactly the slots it is about, those of its grain, those that point to its silo or all; every other slot and its place in the order stay, and an invalidation leaves the directory alone |
| DirectoryCache.DirectoryCache.Create | src/pyleans/pyleans/cluster/directory_cache.py:49-65 | Non-positive size or lifetime is an error |
| DirectoryCache.DirectoryCache.Contains | src/pyleans/pyleans/cluster/directory_cache.py:75-79 | True exactly when a lookup at this clock reading would answer from the cache and leave the slot alone; the answer is then what the directory holds |
| DirectoryCache.DirectoryCache.PutEntry | src/pyleans/pyleans/cluster/directory_cache.py:144-154 | Reordering, inserting and evicting in the ordered dictionary is storing with eviction of the least recently used |
| DirectoryCache.DirectoryCache.Register | src/pyleans/pyleans/cluster/directory_cache.py:81-84 | The object's step is the specified one |
| DirectoryCache.DirectoryCache.Lookup | src/pyleans/pyleans/cluster/directory_cache.py:86-97 | A fresh entry is a hit; an expired one is dropped and looked up anew; absence is not cached |
| DirectoryCache.DirectoryCache.Unregister | src/pyleans/pyleans/cluster/directory_cache.py:99-103 | The cached entry goes even when the directory keeps its own |
| DirectoryCache.DirectoryCache.ResolveOrActivate | src/pyleans/pyleans/cluster/directory_cache.py:105-119 | As lookup, through the directory's placement, whose error is passed on |
| DirectoryCache.DirectoryCache.Invalidate | src/pyleans/pyleans/cluster/directory_cache.py:121-124 | Drops one entry |
| DirectoryCache.DirectoryCache.InvalidateAll | src/pyleans/pyleans/cluster/directory_cache.py:126-130 | Drops every entry |
| DirectoryCache.DirectoryCache.InvalidateSilo | src/pyleans/pyleans/cluster/directory_cache.py:132-142 | Drops exactly the entries that point to the silo |
| Pending.RunIsValid | src/pyleans/pyleans/transport/tcp/pending.py:52-141 | In every run ids rotate within 1..2^64-1, a pending id belongs to the latest request that got it, and timers in the table are armed and belong to pending ids |
| Pending.NoFutureIsLost | src/pyleans/pyleans/transport/tcp/pending.py:52-141 | In every run a waiting future is pending exactly if it was not discarded or overtaken by its id, and a settled one was settled by an operation meant for it |
| Pending.SettlesForGood | src/pyleans/pyleans/transport/tcp/pending.py:75-131 | In every run an operation meant for a waiting request settles its future with that outcome, for good |
| Pending.RequestIsOver | src/pyleans/pyleans/transport/tcp/pending.py:75-124 | After a completion, failure or discard the request is not pending, its timer is neither in the table nor armed, and no other request or timer is touched |
| Pending.AllRequestsAreOver | src/pyleans/pyleans/transport/tcp/pending.py:99-114 | After a disconnect nothing is pending or timed, and exactly the timers of the table are disarmed |
| Pending.FiredIsOver | src/pyleans/pyleans/transport/tcp/pending.py:126-131 | A timer that fires is spent and the request now under its id is neither pending nor timed |
| Pending.AllocationEnters | src/pyleans/pyleans/transport/tcp/pending.py:52-73 | A new request is pending under the next id with a waiting future, and has an armed timer in the table exactly if it is timed |
| Pending.RunGrows | src/pyleans/pyleans/transport/tcp/pending.py:75-131 | A future once settled never changes |
| Pending.AllocateReuses | src/pyleans/pyleans/transport/tcp/pending.py:65-68 | The next id is taken exactly when a live request is 2^64 - 1 allocations old |
| Pending.ApplyTimers | src/pyleans/pyleans/transport/tcp/pending.py:52-141 | One operation leaves an armed timer outside the table if and only if it is a timed allocation of an id whose timer is in the table, and makes a timer a danger to another request if and only if it is an allocation of such an id |
| Pending.ArmedTimersAreKnown | src/pyleans/pyleans/transport/tcp/pending.py:52-141 | Throughout a run armed timers are in the table, and can time out only their own request, if and only if no allocation of those kinds happens |
| Pending.YoungRequestsKeepTheirTimers | src/pyleans/pyleans/transport/tcp/pending.py:65-73 | If no request outlives 2^64 - 2 later allocations, both hold |
| Pending.OvertakenTimerHitsTheNewRequest | src/pyleans/pyleans/transport/tcp/pending.py:65-73 | When an id comes round to a live request with a timer, that timer stays armed and times out the new request |
| Pending.OvertakingHappens | src/pyleans/pyleans/transport/tcp/pending.py:138-141 | A run of 2^64 - 1 allocations after which the next one overtakes a timer that then times it out |
| Pending.PendingRequests.Allocate | src/pyleans/pyleans/transport/tcp/pending.py:52-73 | Hands out the next id with a new waiting future, armed if the timeout is positive |
| Pending.PendingRequests.Complete | src/pyleans/pyleans/transport/tcp/pending.py:75-85 | The object ends as the specified operation says; `SettlesForGood` and `RequestIsOver` say what that is |
| Pending.PendingRequests.Fail | src/pyleans/pyleans/transport/tcp/pending.py:87-97 | As complete, with an error |
| Pending.PendingRequests.FailAll | src/pyleans/pyleans/transport/tcp/pending.py:99-114 | Empties both tables, disarms every timer and fails every waiting future |
| Pending.PendingRequests.Discard | src/pyleans/pyleans/transport/tcp/pending.py:116-124 | Forgets the request without settling its future |
| Pending.PendingRequests.Expire | src/pyleans/pyleans/transport/tcp/pending.py:126-131 | A timer's callback fails the request now under its id |
| Wire.DecodeInvertsEncode | src/pyleans/pyleans/transport/wire.py:55-125 | An encoded message on a stream is read back and exactly its bytes are consumed |
| Wire.EncodeInvertsDecode | src/pyleans/pyleans/transport/wire.py:90-125 | Whatever is accepted is what the encoder produces for the message returned, under the same limit |
| Wire.StreamRoundTrip | src/pyleans/pyleans/transport/wire.py:55-125 | Reading n frames yields these messages and leaves this rest if and only if the stream is their encodings followed by the rest |
| Wire.FramesAreUnambiguous | src/pyleans/pyleans/transport/wire.py:55-87 | Bytes that begin with a frame determine the message and what follows |
| Wire.CutShortIsLost | src/pyleans/pyleans/transport/wire.py:136-145 | A frame cut short anywhere is reported as a lost connection with the stream used up |
| Wire.UnpackInvertsPack | src/pyleans/pyleans/transport/wire.py:37-38 | Big-endian fields read back as written, for every value that fits the width |
| Wire.PackInvertsUnpack | src/pyleans/pyleans/transport/wire.py:37-38 | Every field's bytes are those of the number read from them |
| Wire.MostSignificantFirst | src/pyleans/pyleans/transport/wire.py:37-38 | Fields are big-endian: the first byte weighs most |
| Wire.TypeCodes | src/pyleans/pyleans/transport/messages.py:19-33 | The codes of the message types, and that no other byte is one |
| Wire.FrameLayout | src/pyleans/pyleans/transport/wire.py:71-87 | An accepted frame byte by byte: the length of the rest, the type code, the correlation id, the header length, the header, the body |
| Wire.EncodeFails | src/pyleans/pyleans/transport/wire.py:55-70 | Encoding fails with a value error exactly for a number that does not fit its field, and otherwise exactly for a frame over the limit |
| Wire.DecodeFails | src/pyleans/pyleans/transport/wire.py:90-125 | In terms of the bytes, which error reading reports, exactly when, and what is then left on the stream |
| Wire.PackInto | src/pyleans/pyleans/transport/wire.py:72-80 | Writes one big-endian field into the buffer and nothing else |
| Wire.FillFrame | src/pyleans/pyleans/transport/wire.py:71-86 | Filling the buffer field by field leaves exactly the frame |
| Wire.EncodeFrame | src/pyleans/pyleans/transport/wire.py:55-87 | Range and size errors in the order of the checks, otherwise the frame |
| Wire.StreamReader.ReadExactly | src/pyleans/pyleans/transport/_io.py:12-30 | The bytes asked for, or a lost connection with the stream used up |
| Wire.ReadFrame | src/pyleans/pyleans/transport/wire.py:90-125 | The message or the error, and exactly what is left on the stream in each case |

## Left out

- Completeness of the arcs for a silo on both rings: the code does not provide it; what is proved is exactly when such a silo gets none.
- Requests served under mixed views: the handlers do not check ownership again, and `TwoHoldersInMixedViews` shows the consequence, so the refinement is about runs that keep the discipline `Allowed`.
- Crashes and lost handoffs in the conservation result: what they lose is gone from the directory. The rebuild protocol is there to recover it; when it is asked for and what one rebuild does is modelled (`Rebuild`), but not its grace period and cancellation by the next one.
- Cache operations that overlap: a slow inner call that stores its answer after a later change is not modelled, nor is an inner directory that other code changes or whose `unregister` fails.
- Silo status transitions are modelled for SHUTTING_DOWN, the only status the silo passes to them; the retry loops around its writes appear as repeated read and write steps.
- Peer discovery for probes, the choice of intermediaries, the probe transport and the self-monitoring score: the outcome of an indirect probe is an input of the vote.
- Disconnect hints that arrive while a vote drive waits for the table are not interleaved with that drive.
- The placement strategies: the silo they pick is an input of resolve.
- Timestamps and clock readings are real numbers given from outside; floating-point rounding is not modelled.
- The hash is an arbitrary function; SHA-256 is not part of this model, nor are UTF-8 and the JSON bodies of directory messages.
- The order in which a snapshot lists rows and a partition lists entries is abstracted.
- `int()` on silo ids is modelled for ASCII digits with sign, single underscores and surrounding blanks, not for other Unicode digits.
- The PostgreSQL, YAML and Markdown membership providers, whose etags behave differently.
- Gossip of membership snapshots, connections and their tasks, the gateway, clients, grains, timers, dependency injection and logging.
