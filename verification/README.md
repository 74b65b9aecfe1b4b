# DHT crawler verification

A Dafny model of the core of a BitTorrent DHT crawler, with proofs. The crawler is a set of actors, each the only
owner of its state, and of indexes built by hand. Each of them keeps several redundant structures in step under
capacity, time and rate limits; the proofs say that they do, over every run and for every input.

## Main results

- **Nearest lookup.** The compressed prefix trie over 160-bit identifiers gives, for every node list, target, count
  and family filter, exactly the first nodes of the list sorted by XOR distance and address
  (`RoutingSnapshots.RoutingSnapshot.ClosestNodes`), at a cost bounded by the number of nodes returned. The order is
  that of 160-bit numbers, and of addresses as numbers with IPv4 first (`IdBits.AddrIsNumeric`).
- **No recent endpoint is evicted to make room.** Over every run of the crawl actor, at any metadata pressure, the map
  of recent probes never displaces an endpoint whose deadline lies in the future to make room for another. With
  bootstrap enabled the query budget alone bounds the probes of a TTL window; with bootstrap disabled the bound is the
  smaller of that and the destination budget plus the resident endpoints (`ProbeFunds.RoomForProbe`,
  `CrawlActors.CrawlActor.Safety`). A mark is lost before its time if and only if its endpoint is the pool's next
  node, can be paid for and cannot be sent to, and is not queried in the rest of the tick (`CrawlAttempts.LostIff`,
  carried by `CrawlActors.CrawlActor.OnScheduleTick`; no other handler takes one away). `NodePools.LosesMark` is such
  a run.
- **A tick does its work.** A tick of the crawl actor stops only once the whole tokens of its bucket are used up, the
  limit in flight is reached or nobody could be queried (`CrawlActors.CrawlActor.OnScheduleTick`), and the last case has
  its reasons spelled out (`CrawlAttempts.NobodyQueried`). The discovery actor's tick is described likewise, part by
  part (`Discovery.DiscoveryActor.OnTick`).
- **Conservation.** Queries sent equal responses, timeouts, send failures and requests pending; per-subnet counters
  equal their pending counts; over a tick the query bucket loses one token for each query and the destination bucket
  one for each query that had to be paid for, despite all refunds (`CrawlActors.CrawlActor.Safety`,
  `CrawlStates.TickBalance`). Jobs started equal jobs running, completed, rejected and deferred
  (`Schedulers.Scheduler.Safety`).
- **Reservoir and sampling.** Every occupied slot is in exactly one of the intrusive ready list and the ordered tree,
  and a slot offered for a revisit always returns to one of them. The published sample is exactly of the size asked
  for, covers every populated prefix, and repeats a subnet only when there is no other, although 512 queues share one
  link array. Round robin over the prefixes fixes every pick, so that there is only one such sample
  (`SnapshotSampling.OneSample`, `SnapshotSampling.Alternates`). Every member of a prefix gets its turn as seed
  (`SnapshotSampling.EveryMemberSeeds`).
- **Fairness.** While a retry is due, four consecutive pops of the metadata queue include one; after a retry, three
  fresh jobs follow (`PendingQueues.PendingQueue.Fairness`).
- **Rates.** Whatever is taken, refunded or re-rated, a token bucket hands out no more than its capacity plus the
  integral of its rate (`Budgets.RunWithinCapacity`). A reply source gets at most twice its rate in any second, and
  forgetting idle sources changes no decision over any run (`ReplyLimiters.WorkerResponseLimiter.SameAnswers`).
- **Protocols.** No endpoint is asked for samples before the time it set itself; a lookup asks no endpoint twice and
  always waits for a query or is over, sends as much as it may and ends only for the reasons the code lists
  (`PeerLookups.ReasonToEnd`); a peer race spends at most 12 attempts, is never stuck, and gives up exactly when nothing
  runs and nothing more can be launched.
- **Codec.** Every reply is one well-formed bencoded dictionary, and reading it back gives the valid nodes of its
  family. The reader that this is measured by accepts the written forms only (`Bencoding.WrittenValue`). Which endpoints
  count as nodes is given by the address ranges that are set aside (`AddrBlocks.ValidOutsideBlocks`).

## Modelling choices

- Time is a natural number of nanoseconds and does not run backwards between steps of an actor. Tokens are reals.
  Sequence numbers and transaction numbers are unbounded.
- An object that the program updates in place is a class. Ordered maps and sets are `map` and `set` fields whose first
  or last key is found by its order; queues and vectors are `seq` fields. A hash of the scheduler is a number.
- A handler of an actor is one atomic step. Which datagrams leave, when a channel has room and when the receiver of a
  lookup goes away are fixed by functions that the constructor of an actor is given; the results hold for all of them.
  How far the clock moves on during a step is left open.
- What "over every run" means: `Valid()` holds after the constructor and after every handler from `Valid()`, and the
  `Safety` lemma of the class spells out what `Valid()` contains. Logs, the clock and the history of evictions are
  ghost fields, so that the results can speak of the past.
- The budgets of the actors are values of the type `Bucket`, whose functions the mutable `RateBucket` is proved
  against.
- Members of a module that no row names are steps of the proofs.

Where code and documentation differ, the model follows the code. `restore_front` (`src/node_pool.rs:265-269`) takes
the mark of a refused head away even if the head was recent before it was taken, which happens to a node that is
probed by another way while it is queued.

`src/types.rs:197` calls `retry_max_attempts` the maximum number of failed jobs for a hash in one lifetime of its
record. The code grants up to two extra attempts when new evidence turns up, so that the number is exceeded:
`Schedulers.OverrunExample` shows a run that does, `Schedulers.OverrunIff` and `Schedulers.ExtraIff` say exactly when
it happens, and the bound that always holds is two more.

## Model

| member | source | states |
|---|---|---|
| `IdBits.LexIsNumeric` | src/routing_snapshot.rs:206-218 | comparing identifiers byte by byte is comparing the 160-bit numbers that they are |
| `IdBits.AddrIsNumeric` | src/routing_snapshot.rs:196-198 | the address order that breaks ties is that of the numbers the octets and port spell, with IPv4 before IPv6, and equal numbers mean equal addresses |
| `AddrBlocks.ValidOutsideBlocks` | src/addr.rs:12-54 | an endpoint counts as a node if and only if it has a port and its address, as a 32-bit or 128-bit number, lies in none of the ranges that are set aside |
| `RoutingSnapshots.XorDistanceCmp` | src/routing_snapshot.rs:206-218 | the byte-by-byte comparison is the order of the two XOR distances as 160-bit numbers, and reports equality only for equal identifiers |
| `RoutingSnapshots.PrefixIndex.constructor` | src/routing_snapshot.rs:20-40 | the nodes are a sorted permutation of the input, the branches encode a prefix trie over them, and there are exactly two branches per distinct identifier, less one |
| `RoutingSnapshots.PrefixIndex.PartitionPoint` | src/routing_snapshot.rs:51-53 | the binary search finds the boundary between a clear and a set bit |
| `RoutingSnapshots.PrefixIndex.Build` | src/routing_snapshot.rs:42-63 | the branches appended for a stretch of nodes encode a trie over it: every fork splits at the first differing bit, children come before their parent, and the number of branches is exact |
| `RoutingSnapshots.NearFirstSorts` | src/routing_snapshot.rs:78-102 | for every target, visiting the near side of each fork before the far side lists the nodes in order of XOR distance and address, each exactly once |
| `RoutingSnapshots.TrieAnswers` | src/routing_snapshot.rs:65-102 | the near-first listing of the whole trie is the sorted list of all nodes, for every target at once |
| `RoutingSnapshots.DistinctCounts` | src/routing_snapshot.rs:42-63 | the count that fixes the number of branches is the number of different identifiers |
| `RoutingSnapshots.PrefixIndex.Visit` | src/routing_snapshot.rs:78-102 | the recursive visit appends exactly the first nodes of the near-first listing up to the limit, never stops short, and its cost is bounded by depth and output |
| `RoutingSnapshots.PrefixIndex.AppendNearest` | src/routing_snapshot.rs:65-76 | appends exactly the count nearest nodes in order, visiting at most 161 branches for each node returned |
| `RoutingSnapshots.BothFamilies` | src/routing_snapshot.rs:192-200 | merging the nearest of each family and keeping the first count gives the nearest of both together |
| `RoutingSnapshots.RoutingSnapshot.constructor` | src/routing_snapshot.rs:112-141 | the input is cut to the limit first and then partitioned by family; each family has its own index |
| `RoutingSnapshots.RoutingSnapshot.Partition` | src/routing_snapshot.rs:112-141 | every node goes to the list of its family, in the order it had, and none is lost or added |
| `RoutingSnapshots.RoutingSnapshot.ClosestNodes` | src/routing_snapshot.rs:175-203 | for every node list, target, count and family filter: the first count of the admitted nodes sorted by distance and address; that is, counted with their repeats, no admitted node left out has a smaller XOR distance as a 160-bit number or, at equal distance, a smaller address than one returned, fewer than count come only if all come, and they come in that order |
| `RoutingSnapshots.FirstAreNearest` | src/routing_snapshot.rs:175-203 | taking the first of the list sorted by distance and address is choosing the nearest in the numeric sense, for every list, count and filter |
| `Budgets.TakeUpToLevel` | src/budget.rs:83-91 | a take removes exactly what it reports from the level of an ideal, continuously refilled bucket, and leaves less than one token if it reports less than it was asked for |
| `Budgets.TakeExactLevel` | src/budget.rs:68-81 | an exact take succeeds if and only if it asks for nothing or the bucket has a rate and the level covers it; a failed one changes no level |
| `Budgets.RefundLevel` | src/budget.rs:97-99 | a refund adds to the level up to the capacity |
| `Budgets.SetRateLevel` | src/budget.rs:54-62 | a rate change keeps the level, except that a zero rate empties the bucket |
| `Budgets.RefillKeepsLevel` | src/budget.rs:101-110 | refilling changes no level now or later: when it happens does not matter |
| `Budgets.RunBound` | src/budget.rs:40-110 | over every run of takes, refunds and rate changes, what is handed out plus what is left is at most what was there plus the integral of the rate |
| `Budgets.RunWithinCapacity` | src/budget.rs:40-110 | over any run no more than a full bucket plus the integral of the rate is handed out |
| `Budgets.NoRetroactiveCredit` | src/budget.rs:54-62 | a period spent at rate zero earns nothing, whatever is taken, refunded or set to zero again in it |
| `Budgets.RateBucket.TryTake` | src/budget.rs:83-91 | a take on the mutable bucket is the one that the run bound speaks of, and the bucket stays within its capacity |
| `Budgets.RateBucket.TryTakeExact` | src/budget.rs:68-81 | an exact take on the mutable bucket is the one that the run bound speaks of, whether it succeeds or not |
| `Budgets.RateBucket.SetPerSecondRate` | src/budget.rs:54-62 | a rate change on the mutable bucket settles the tokens earned so far at the old rate |
| `Budgets.RateBucket.RefundTokens` | src/budget.rs:97-99 | a refund on the mutable bucket is the one that the run bound speaks of |
| `Budgets.TakeUpToWhole` | src/budget.rs:83-91 | a take up to a number gives the whole part of the level of the ideal bucket, up to that number |
| `RecentProbing.RecentProbes.Contains` | src/node_pool.rs:48-52 | an endpoint is recent if and only if its deadline lies in the future |
| `RecentProbing.RecentProbes.SiftUp` | src/node_pool.rs:95-104 | restores heap order while every back reference stays exact and no deadline or heap key changes |
| `RecentProbing.RecentProbes.SiftDown` | src/node_pool.rs:106-124 | restores heap order below a changed slot while every back reference stays exact and no deadline or heap key changes |
| `RecentProbing.RecentProbes.RemoveAt` | src/node_pool.rs:126-140 | removes exactly one endpoint; order, back references and all other keys stay |
| `RecentProbing.RecentProbes.Record` | src/node_pool.rs:54-75 | refines an address-to-deadline map: a known endpoint gets the new deadline, a new one is added; another is displaced if and only if the map is full, and then one with the earliest heap key |
| `RecentProbing.RecentProbes.Remove` | src/node_pool.rs:77-81 | removes one endpoint from the map, if it is there |
| `RecentProbing.RecentProbes.HasDue` | src/node_pool.rs:142-144 | looking at the head of the heap decides whether any stored endpoint has a check that is due |
| `RecentProbing.RecentProbes.Expire` | src/node_pool.rs:146-166 | drops only endpoints whose deadline has passed, and settles exactly the first 256 due checks, or all if there are fewer |
| `RecentProbing.RecentProbes.CheckHead` | src/node_pool.rs:146-166 | one due check either drops an expired endpoint or moves its heap key up to its deadline, and is then no longer due |
| `RecentProbing.RetainedLive` | src/node_pool.rs:146-166 | what expiry retains has the same live endpoints as before |
| `NodePools.NodePool.PrepareRecentSlot` | src/node_pool.rs:316-327 | the drain loop ends; at capacity, with a new endpoint, everything left in the map is live |
| `NodePools.NodePool.RecordProbe` | src/node_pool.rs:276-280 | a probe makes its endpoint recent for the TTL; another recent endpoint is forgotten if and only if this one is new and the recent ones alone fill the capacity |
| `NodePools.NodePool.ContainsRecent` | src/node_pool.rs:271-274 | answers by deadline whatever the heap still holds, forgets no recent endpoint, and settles up to 256 due checks |
| `NodePools.NodePool.Admit` | src/node_pool.rs:211-241 | each outcome and the whole new line: invalid, queued or recent already, refused for want of a replacement token once the pool was full, appended, or appended in place of the oldest; no recent endpoint is forgotten, and up to 256 due checks are settled |
| `NodePools.NodePool.RotateFrontToBack` | src/node_pool.rs:249-255 | the head goes to the back, still queued and not marked as probed |
| `NodePools.NodePool.TakeFrontForProbe` | src/node_pool.rs:257-263 | takes the head and marks it as probed, with the same displacement rule as a probe |
| `NodePools.NodePool.RestoreFront` | src/node_pool.rs:265-269 | puts a refused node back at the head and takes its mark away |
| `NodePools.LosesMark` | src/node_pool.rs:211-280 | a run of pool operations that loses a mark: queue a node, probe it by another way, take it, put it back |
| `Reservoirs.Reservoir.Unschedule` | src/node_pool.rs:587-610 | unlinks a slot from the doubly linked ready list or removes its key; the list stays well formed |
| `Reservoirs.Reservoir.PushReady` | src/node_pool.rs:612-624 | appends a slot to the ready list; links, ends and length stay exact |
| `Reservoirs.Reservoir.EnqueueRevisit` | src/node_pool.rs:626-640 | a slot is ready if and only if its time, or its backoff if that is later, has come; else it has a new key for that time |
| `Reservoirs.Reservoir.RecordProbe` | src/node_pool.rs:530-539 | notes the time of the probe and schedules the node one revisit interval on, or at the end of its backoff if that is later; every other slot keeps its place |
| `Reservoirs.Reservoir.DeferRevisit` | src/node_pool.rs:543-553 | schedules the node for the retry time, but not before it is rested and past its backoff, and changes nothing else that is known; every other slot keeps its place |
| `Reservoirs.Reservoir.RecordFailure` | src/node_pool.rs:557-577 | counts a failure if and only if the node has not answered since the request was sent, adds the next backoff and schedules the node after it; otherwise nothing changes |
| `Reservoirs.BackoffDoubles` | src/node_pool.rs:557-577 | the backoff starts at five seconds and doubles with every failure, up to a minute |
| `Reservoirs.Reservoir.IsBackingOff` | src/node_pool.rs:579-585 | a node is backing off if and only if its backoff ends in the future |
| `Reservoirs.Reservoir.Record` | src/node_pool.rs:461-497 | a reply refreshes a known node, ends its backoff and reschedules it if it had one, or takes over the slot at the write cursor from whoever had it; every other slot keeps its place |
| `Reservoirs.Reservoir.PromoteDue` | src/node_pool.rs:501-512 | moves due keys to the ready list in order, 256 at most |
| `Reservoirs.Reservoir.NextRevisit` | src/node_pool.rs:501-528 | returns only a node that is unexpired, past its backoff and, by its recorded probe time, rested; it alone is then in neither schedule; only expired nodes are dropped, 256 at most, and the order of the ready list is kept; it returns none only if nobody is due or it dropped 256 |
| `Reservoirs.Reservoir.Fits` | src/node_pool.rs:461-497 | the index maps different addresses to different occupied slots, so there are no more nodes than slots |
| `SnapshotSampling.PushBack` | src/node_pool.rs:381-390 | appends a slot to one of many queues that share a link array; the links of all other slots stay |
| `SnapshotSampling.PopFront` | src/node_pool.rs:392-400 | takes the head; what is left is still the queue, link by link |
| `SnapshotSampling.RotateLeft` | src/node_pool.rs:402-412 | closing the ring, walking and opening it again rotates the queue and touches no other slot |
| `SnapshotSampling.BankPush` | src/node_pool.rs:380-413 | after a push all 512 queues in one link array still spell their contents and share no slot |
| `SnapshotSampling.BankPop` | src/node_pool.rs:380-413 | after a pop all 512 queues in one link array still spell their contents and share no slot |
| `SnapshotSampling.Gather` | src/node_pool.rs:651-663 | every eligible slot is queued with its prefix, in slot order, whatever the link array held before |
| `SnapshotSampling.Arrange` | src/node_pool.rs:664-678 | every prefix starts with the member whose turn it is, and the populated prefixes are listed |
| `SnapshotSampling.SeedPass` | src/node_pool.rs:691-705 | one seed for each populated prefix, in order, up to the limit |
| `SnapshotSampling.FillPass` | src/node_pool.rs:707-726 | round robin over the prefixes, each pick being the next of its prefix that brings a new subnet, and its prefix the next in turn among those that have one; until the limit or until no such node is left |
| `SnapshotSampling.FallbackPass` | src/node_pool.rs:728-747 | what was put off fills the sample to exactly the limit, again by turns of the prefixes and in the order of each |
| `SnapshotSampling.Passes` | src/node_pool.rs:680-747 | the three passes together: exactly min(limit, eligible) different eligible nodes, each pass taking the picks that its round robin fixes, and a subnet repeats in the last pass only once every eligible subnet is present |
| `SnapshotSampling.SampleCoversPrefixes` | src/node_pool.rs:645-758 | a sample at least as large as the number of populated prefixes has a node of each |
| `SnapshotSampling.Sparse` | src/node_pool.rs:664-678 | the prefixes with the least coverage, in ascending order |
| `SnapshotSampling.Sampler.Snapshot` | src/node_pool.rs:645-758 | the published sample with the round robin that fixes every pick, the sparse prefixes as exactly the least covered ones in ascending order, and the cursors that decide whose turn is next |
| `SnapshotSampling.EveryMemberSeeds` | src/node_pool.rs:748-756 | over snapshots that have a seed for a prefix whose members do not change, every member is that seed once within as many snapshots as there are members |
| `SnapshotSampling.SampleDistinct` | src/node_pool.rs:645-758 | the nodes of a sample have different endpoints |
| `SnapshotSampling.OneSample` | src/node_pool.rs:680-747 | slots, limit, order and cursors fix the whole sample: any two lists that meet the description are equal |
| `SnapshotSampling.Alternates` | src/node_pool.rs:707-726 | between two picks of one prefix in the fill pass, every other prefix that still has a node of a new subnet had its turn |
| `SnapshotSampling.FillsWhile` | src/node_pool.rs:707-747 | a pick belongs to the fill pass if and only if some node of a new subnet was still left, and then brings one itself |
| `SnapshotSampling.SampleLive` | src/node_pool.rs:645-758 | a sample names only members of the reservoir that have neither expired nor are backing off, and all of those unless it has the length asked for |
| `PendingQueues.MergeCandidate` | src/scheduler.rs:143-174 | candidates stay different, newest first and at most 64, an endpoint keeps the latest time it was seen at, and none older than a dropped one is kept; the candidate is new if and only if no other has its endpoint |
| `PendingQueues.IndexSize` | src/scheduler.rs:128-141 | an index has exactly one key for each entry it lists |
| `PendingQueues.PendingQueue.Insert` | src/scheduler.rs:205-227 | every hash keeps one expiry key, one of the waiting and two ready keys, and a retry key exactly if it is a retry |
| `PendingQueues.PendingQueue.Remove` | src/scheduler.rs:284-293 | all keys of the hash go, and no others |
| `PendingQueues.PendingQueue.PressureLen` | src/scheduler.rs:197-199 | the difference of index sizes is the number of fresh hashes and due retries |
| `PendingQueues.PendingQueue.Oldest` | src/scheduler.rs:246-254 | the retry that expires first, else the fresh hash seen least recently |
| `PendingQueues.PendingQueue.MakeRoom` | src/scheduler.rs:245-265 | a fresh hash is displaced only when there is no retry, it was seen least recently and the newcomer is strictly newer |
| `PendingQueues.PendingQueue.Push` | src/scheduler.rs:229-282 | the verdict and the whole new queue: stale, merged, inserted, or inserted in place of the hash that goes first; size and retry share stay bounded |
| `PendingQueues.PendingQueue.Defer` | src/scheduler.rs:295-308 | a retry is queued if and only if the queue and its share of retries have room |
| `PendingQueues.PendingQueue.PromoteReady` | src/scheduler.rs:310-324 | exactly the entries that are due become ready |
| `PendingQueues.PendingQueue.Expire` | src/scheduler.rs:346-357 | exactly the entries whose life has ended go, and they are counted |
| `PendingQueues.PendingQueue.TakeReady` | src/scheduler.rs:333-343 | a due retry goes first when three fresh jobs went before or nothing fresh is ready; it is the one due first, a fresh job the one seen last |
| `PendingQueues.PendingQueue.PopNewestReady` | src/scheduler.rs:326-344 | the queue first drops what has expired and promotes what is due; then a due retry goes first when three fresh jobs went before or nothing fresh is ready |
| `PendingQueues.RetryWithinFour` | src/scheduler.rs:326-344 | over every run: while a retry is due, any four consecutive pops include a retry |
| `PendingQueues.ThreeFreshAfterRetry` | src/scheduler.rs:326-344 | after a retry, while fresh work is ready, the next three pops are fresh |
| `PendingQueues.PopCycle` | src/scheduler.rs:326-344 | with both kinds always ready, pops follow a strict cycle of three fresh jobs and one retry |
| `PendingQueues.PendingQueue.Fairness` | src/scheduler.rs:326-344 | over every run of a queue: of four consecutive pops with a retry due one takes a retry, and after a retry, with fresh work ready, the next three take fresh jobs |
| `PendingQueues.MergedSources` | src/scheduler.rs:143-174 | the node that reported last comes first, each endpoint is listed once, at most the limit is kept, nothing is dropped while there is room, and an announce stays an announce |
| `RetryHistories.BackoffGrows` | src/scheduler.rs:458-470 | more failures never shorten the wait, which lies between a tenth of a second and a week |
| `RetryHistories.NotedAllKeeps` | src/scheduler.rs:501-510 | evidence keeps what is there, has no repeats, and leaves something out only when it is full |
| `RetryHistories.RetryHistory.Expire` | src/scheduler.rs:409-417 | exactly the records whose time has come are forgotten |
| `RetryHistories.RetryHistory.Remove` | src/scheduler.rs:418-423 | one record goes, with its expiry key |
| `RetryHistories.RetryHistory.Note` | src/scheduler.rs:424-472 | a record is started only if there is room, its expiry fixed then; a failure counts one; the next due time follows the backoff |
| `RetryHistories.RetryHistory.ObserveEvent` | src/scheduler.rs:474-499 | new evidence about an exhausted hash earns one more attempt, twice at most |
| `RetryHistories.RetryHistory.Remember` | src/scheduler.rs:501-510 | the peers and nodes of a finished job are added to the evidence |
| `RetryHistories.DelayDoubles` | src/scheduler.rs:458-470 | the first wait is the configured one, every further failure doubles it up to the configured longest, and after 32 failures it stays |
| `Schedulers.NoteDisciplined` | src/scheduler.rs:424-472 | noting an attempt of a hash that had one left keeps every record within its limit and every expiry where it was |
| `Schedulers.ObserveDisciplined` | src/scheduler.rs:474-499 | weighing an event grants an attempt only to a record at its limit |
| `Schedulers.RecentList` | src/scheduler.rs:884-893 | dropping stale candidates keeps the list different, ordered and bounded |
| `Schedulers.Scheduler.constructor` | src/scheduler.rs:611-640 | starts in order and empty, with the lookup and capacity given and at least one job allowed |
| `Schedulers.Scheduler.EnqueueFlying` | src/scheduler.rs:770-795 | a discovery of a running hash is merged unless it is stale; a peer is handed to the job if and only if the job lacks it, has room for it and its channel takes it |
| `Schedulers.Scheduler.EnqueueIdle` | src/scheduler.rs:796-828 | a discovery of another hash is weighed against its record, refused if no attempt is left, else pushed, and deferred if it has a record; the expiry of a record never moves |
| `Schedulers.Scheduler.DispatchOne` | src/scheduler.rs:872-912 | the hash that the 3:1 rule picks leaves the queue and flies with its candidates, the stale ones removed unless it is a retry; without candidates and lookup it is dropped |
| `Schedulers.Scheduler.DispatchReady` | src/scheduler.rs:864-913 | jobs are started until the limit is reached or nothing is ready; running jobs stay as they are |
| `Schedulers.Scheduler.ScheduleRetry` | src/scheduler.rs:995-1045 | a finished job is noted against its hash, and the hash is queued as a retry exactly if an attempt is left, its time comes before the record expires and there is room; the expiry of a record never moves |
| `Schedulers.Scheduler.HandleJobResult` | src/scheduler.rs:955-993 | the job and its hash leave, the outcome is counted once, an accepted or rejected hash loses its record, and any other goes through the retry rules |
| `Schedulers.Scheduler.Maintain` | src/scheduler.rs:733-742 | the maintenance tick drops exactly what has expired |
| `Schedulers.Scheduler.Safety` | src/scheduler.rs:658-760 | over every run: no hash is queued and in flight at once, jobs never exceed the limit, jobs started equal those running, completed, rejected and deferred, and a record counts at most two failures more than the policy allows |
| `Schedulers.OverrunIff` | src/scheduler.rs:424-472 | a failure takes a record beyond the configured number of attempts if and only if the record was granted an extra attempt |
| `Schedulers.ExtraIff` | src/scheduler.rs:474-499 | a record is granted an extra attempt if and only if retries are on, its failures have reached its limit, it has had fewer than two, and the event names a peer or a node that is not on record |
| `Schedulers.OverrunExample` | src/scheduler.rs:424-499 | with one attempt configured, a second attempt fails after a new peer is heard of |
| `Schedulers.StartsWith` | src/scheduler.rs:884-893 | a job starts with exactly the candidates that were seen within the time a hash may wait, and a retry with all of them |
| `PeerRaces.LaunchBounds` | src/scheduler.rs:1244-1377 | no address is launched twice, 64 are launched at most, and 12 count as attempts at most |
| `PeerRaces.PeerRace.constructor` | src/scheduler.rs:1260-1301 | starts with the first 64 different candidates in the order given, has launched as many as may be reserved, and gives up at once if and only if nothing runs and nobody more can arrive |
| `PeerRaces.PeerRace.QueueCandidate` | src/scheduler.rs:1233-1242 | a candidate is lined up unless it was seen or 64 were |
| `PeerRaces.PeerRace.Launch` | src/scheduler.rs:1303-1318 | candidates are launched in order while an attempt can be reserved |
| `PeerRaces.PeerRace.Round` | src/scheduler.rs:1303-1329 | after the top of the loop either every candidate is launched or 12 attempts are reserved; the race ends if and only if nothing runs and either 12 attempts are used up or nobody waits and both channels are closed |
| `PeerRaces.PeerRace.End` | src/scheduler.rs:1332-1351 | a skip refunds its reservation, a failure keeps it, a success ends the race and cancels the rest |
| `PeerRaces.PeerRace.Step` | src/scheduler.rs:1302-1376 | in every interleaving, reservations are exactly the running fetches and those that ended without a skip, at most 12; it ends with a find exactly on a fetch that succeeds, and without one exactly on the idle timer, or when nothing runs and either 12 attempts are spent or every seen candidate was launched and nobody more can arrive |
| `PeerRaces.PeerRace.NeverStuck` | src/scheduler.rs:1331-1375 | some branch of the select is enabled as long as the race goes on |
| `PeerRaces.PeerRace.OwnTimer` | src/scheduler.rs:1331-1375 | with no fetch running, the race's own idle timer or its deadline for the lookup is enabled, if and only if the lookup channel is not open past that deadline |
| `PeerRaces.PeerRace.React` | src/scheduler.rs:1331-1375 | what each branch of the select changes, and that it changes nothing else |
| `ProbeWindows.RateWithin` | src/crawl_config.rs:108-119 | pressure only lowers the query rate, down to the configured floor |
| `ProbeWindows.MeterAdvance` | src/budget.rs:101-110 | waiting keeps the books: what the bucket gains, every window earns |
| `ProbeWindows.MeterSpend` | src/crawl_engine.rs:567-588 | a probe uses up one token in hand in every window that contains it |
| `ProbeWindows.ResidentAdvance` | src/crawl_engine.rs:42-47 | at the start of any window the endpoints that can be probed for free are those in the reservoir or in flight |
| `ProbeWindows.ResidentUnpaid` | src/crawl_engine.rs:646-668 | an unpaid revisit adds no endpoint to any window |
| `ProbeWindows.QueryRoom` | src/crawl_engine.rs:31-35 | with a query token in hand, the live endpoints leave room within rate times TTL plus burst |
| `ProbeWindows.ResidentRoom` | src/crawl_engine.rs:36-47 | with a destination token in hand, they leave room within the destinations of a TTL plus the reservoir plus the requests in flight |
| `ProbeWindows.RateLine` | src/crawl_config.rs:108-119 | the rate is the configured one below a pressure of 0.80, the nearest whole number to the floor from 0.95 on, and in between nearest to the straight line through those two points |
| `ProbeWindows.RateFalls` | src/crawl_config.rs:108-119 | more pressure never raises the rate |
| `ProbeWindows.CapacityIs` | src/crawl_engine.rs:31-60 | the capacity is the query window, or with bootstrap disabled the resident window if that is smaller, but at least one |
| `ProbeFunds.FundedProbe` | src/crawl_engine.rs:646-668 | a probe paid for, or of a recent and known endpoint, keeps every window within its budget |
| `ProbeFunds.FundedRefund` | src/budget.rs:97-99 | tokens in hand that are given back are never lost to the capacity |
| `ProbeFunds.RoomForProbe` | src/crawl_engine.rs:31-59 | with both tokens in hand, the live endpoints do not fill the capacity, with bootstrap or without |
| `ProbeFunds.FundedUnpay` | src/crawl_engine.rs:610-612 | a destination token in hand that is given back raises the level of its bucket by one |
| `CrawlLedgers.LedgerSent` | src/crawl_engine.rs:694-710 | a dispatch within the limits keeps subnet counters, keys and deadlines in step |
| `CrawlLedgers.LedgerClosed` | src/crawl_engine.rs:780-789 | the end of a request keeps subnet counters, keys and deadlines in step, and removes a counter that reaches zero |
| `CrawlLedgers.NoneOverdue` | src/crawl_engine.rs:751-778 | once the head of the expiry queue is not due, nothing pending is overdue |
| `CrawlStates.GoodProbe` | src/crawl_engine.rs:590-731 | a probe that may be made keeps all books and displaces no recent endpoint |
| `CrawlStates.GoodEnd` | src/crawl_engine.rs:517-558 | the end of a request keeps all books, even if its endpoint takes a place in the reservoir |
| `CrawlStates.TickBalance` | src/crawl_engine.rs:571-586 | after a tick the query bucket holds what it held at the new rate, less one token for each query sent, and the destination bucket what it held, less one for each query that had to be paid for, despite all refunds |
| `CrawlStates.MarkedSince` | src/crawl_engine.rs:590-668 | an endpoint that gains a mark was queried, and its mark runs from then |
| `CrawlAttempts.FirstOpenIs` | src/crawl_engine.rs:615-626 | the pool's next node is the first whose subnet has room and which is not backing off, among the first 256 |
| `CrawlAttempts.LostAt` | src/crawl_engine.rs:590-668 | one attempt takes a mark away if and only if its endpoint is put back and is not revisited in the same attempt |
| `CrawlAttempts.PutBackWhy` | src/crawl_engine.rs:627-641 | the pool's next node is put back if and only if it can be paid for and the limit in flight is reached, its family has no channel or that channel has no room when asked, and the bootstrap address was not sent to instead |
| `CrawlAttempts.LostIff` | src/crawl_engine.rs:590-668 | over any run of attempts, each from the state that the one before it left: an endpoint loses its mark before the mark's time if and only if, still recent, it was the pool's next node, could be paid for and could not be sent to, and was not queried after that |
| `CrawlAttempts.NobodyQueried` | src/crawl_engine.rs:590-668 | an attempt queries nobody only if the bootstrap address could not be sent to, no node of the pool could be paid for and sent to unless the bootstrap address could not be paid for, and either nobody was due for a revisit or the node offered for one could not be paid for or sent to |
| `CrawlActors.CrawlActor.constructor` | src/crawl_engine.rs:341-413 | starts with empty books and empty buckets |
| `CrawlActors.CrawlActor.TryDispatch` | src/crawl_engine.rs:670-731 | a request leaves if and only if it is within the limits, its node is not backing off and its family has a channel that has room when asked; it is filed under a new key with its deadline and counted for its subnet, and a refusal changes nothing but that the channel may have been asked |
| `CrawlActors.CrawlActor.Probe` | src/crawl_engine.rs:646-668 | the whole new state of a probe of a revisited or bootstrap node |
| `CrawlActors.CrawlActor.ScheduleRevisit` | src/crawl_engine.rs:646-668 | a node that is due is offered for a revisit unless none is, and sent to if and only if it can be paid for, or is recent, and can be sent to; every refusal puts it back into a schedule and leaves the destination bucket at its level |
| `CrawlActors.CrawlActor.ProbeBootstrap` | src/crawl_engine.rs:591-613 | probes the first bootstrap address, for a destination token unless it is recent, exactly if it can be paid for and sent to; a refusal leaves the destination bucket at its level and every mark in place |
| `CrawlActors.CrawlActor.ProbeFront` | src/crawl_engine.rs:627-641 | the head of the pool is paid for if and only if the destination bucket has a token, and sent to if and only if it is paid for, within the limits, not backing off and its channel has room; a refusal puts the head back and leaves the destination bucket at its level, but takes away the head's mark, even one that was there before |
| `CrawlActors.CrawlActor.FindFront` | src/crawl_engine.rs:615-626 | turns the pool to its first node that may be asked, if there is one among the first 256 |
| `CrawlActors.CrawlActor.ScheduleOther` | src/crawl_engine.rs:615-643 | the pool's next node is sent to, put back or passed over exactly as the state found and the room in its channel decide, with the queue that this leaves; if it is not sent to, a node that is due is revisited exactly if it can be paid for and sent to |
| `CrawlActors.CrawlActor.ScheduleOne` | src/crawl_engine.rs:590-644 | one attempt: the state found and the room in the channels decide whether it goes to the bootstrap address, to the pool's next node or to a revisit, and whether the next node is put back; one query for one query token, or none and no token spent, and none only if no revisit was due or the one due was refused for a stated reason; a destination token exactly for the pool and for endpoints that are not recent; only a head that is put back loses its mark; the whole new queue |
| `CrawlActors.CrawlActor.SendQueries` | src/crawl_engine.rs:577-586 | makes attempts one after the other from the state at its call to the state that it leaves, one token for each query; it stops only once the budget is used up, the limit in flight is reached or the last attempt found nobody to query, and no attempt follows such a one |
| `CrawlActors.CrawlActor.SpendBudget` | src/crawl_engine.rs:571-586 | net query tokens spent equal queries sent, and net destination tokens those that had to be paid for; it sends all whole tokens of the bucket at its new rate, up to the burst, unless the limit in flight is reached or the last attempt found nobody to query |
| `CrawlActors.CrawlActor.ExpirePending` | src/crawl_engine.rs:751-778 | nothing overdue is left and nothing else is lost; what is known of the nodes changes as each overdue request in turn is held against its node |
| `CrawlActors.CrawlActor.ExpireHead` | src/crawl_engine.rs:751-778 | one expired request is counted as a timeout and held against its node |
| `CrawlActors.CrawlActor.OnScheduleTick` | src/crawl_engine.rs:567-588 | over every tick at any pressure: all books are kept, nothing overdue remains and both buckets balance; the attempts are a run from the state found, less what is overdue, to the state left; the run stops only once the whole tokens up to the burst are used up, the limit in flight is reached or the last attempt found nobody to query; bootstrap is resolved exactly if it is due; and a recent endpoint loses its mark if and only if that run put it back when it was the pool's next node, could be paid for and could not be sent to, and did not query it after that |
| `CrawlActors.CrawlActor.MaybeResolveBootstrap` | src/crawl_engine.rs:795-816 | a resolution starts only when bootstrap is enabled, none is waiting and the pool is low |
| `CrawlActors.CrawlActor.HandleResponse` | src/crawl_engine.rs:517-558 | an unmatched reply is only counted; another ends exactly its request, enters its sender under the identity it gave, and offers the nodes it names to the pool in order; no mark is lost before its time |
| `CrawlActors.CrawlActor.HandleSendFailed` | src/crawl_engine.rs:490-505 | a request that never left ends once, is counted as a send failure and is held against its node |
| `CrawlActors.CrawlActor.HandleBootstrapResolved` | src/crawl_engine.rs:506-513 | resolved addresses are appended to the bootstrap queue |
| `CrawlActors.CrawlActor.AdmitDiscovered` | src/crawl_engine.rs:560-565 | the pool changes exactly as for one offered node; no request and no token is touched |
| `CrawlActors.CrawlActor.Safety` | src/crawl_engine.rs:483-789 | over every run: queries equal responses, timeouts, send failures and pending; subnet counters equal their pending counts within the limit; and no recent endpoint was ever evicted to make room |
| `Discovery.TidyEnrolled` | src/discovery.rs:312-340 | taking in a candidate keeps keys, waiting endpoints and sizes in step |
| `Discovery.TidyEnded` | src/discovery.rs:359-370 | an answered endpoint moves from waiting to cooling down within the reserved history |
| `Discovery.IntervalHonoured` | src/discovery.rs:476-551 | the interval an endpoint asks for is honoured up to the protocol's longest, even in a malformed reply |
| `Discovery.DiscoveryActor.AdmitNode` | src/discovery.rs:312-340 | the exact effect of offering a node: nothing while it cools down |
| `Discovery.DiscoveryActor.WakeDue` | src/discovery.rs:373-386 | endpoints are woken in order of their time and address, none early, each offered again as a new candidate, until none is due or exactly 256 are awake |
| `Discovery.DiscoveryActor.ExpirePending` | src/discovery.rs:387-396 | exactly the overdue endpoints are given up on, each of them cools down from now on, and each is on record once |
| `Discovery.DiscoveryActor.SendOne` | src/discovery.rs:411-463 | asks the first candidate whose turn it is, or stops for one of the stated reasons |
| `Discovery.DiscoveryActor.Ask` | src/discovery.rs:428-463 | the candidate loses its key and is awaited under a new number, if and only if its family has a socket and the datagram leaves, and else cools down; the contact is on record either way |
| `Discovery.DiscoveryActor.OnTick` | src/discovery.rs:372-474 | a whole tick in its parts: up to 256 endpoints are woken in order, the overdue are given up on, the seeds are offered in order, and candidates whose turn it is are asked in the order of their keys, one token each; it ends only after the burst, or when the requests in flight or the history are at their limits, nobody is due or no whole token is left; the log grows by exactly these contacts |
| `Discovery.DiscoveryActor.HandleResponse` | src/discovery.rs:476-551 | a matching reply sets its sender's time and name exactly once and, if it is sound, offers the first 64 neighbours, none of which can undo that time; any other reply changes nothing |
| `Discovery.DiscoveryActor.Safety` | src/discovery.rs:191-551 | over every run no endpoint is queried before a time that its own replies, errors and timeouts had set; awaited and cooling endpoints fit the capacity; the awaited are the candidates without a key; candidates and cooldowns are disjoint |
| `Discovery.DiscoveryActor.AdmitAll` | src/discovery.rs:544-550 | offering several nodes is one admission after the other, and an endpoint that cools down keeps its time |
| `Discovery.CoolLeast` | src/discovery.rs:476-541 | the time an endpoint cools down after a reply is the least that meets all demands on it |
| `Discovery.DiscoveryActor.AskAll` | src/discovery.rs:411-463 | candidates are asked in the order of their keys, each filed or cooled down as its query left or not, until the burst or until one of the stated limits |
| `HashDedups.NoLongerNews` | src/discovery.rs:169-188 | a report that was taken in is no news any more; reports stay different and at most four |
| `HashDedups.HashDedup.Contains` | src/discovery.rs:148-167 | exactly the hashes whose time is over are forgotten, and the answer is by the reports left |
| `HashDedups.HashDedup.Insert` | src/discovery.rs:169-188 | a known hash keeps its time; a new one displaces the hash that would be forgotten first when there is no room |
| `PeerLookups.Closest` | src/peer_lookup.rs:68-74 | the frontier node nearest to the hash |
| `PeerLookups.WalksTaken` | src/peer_lookup.rs:64-75 | the next endpoint was not asked before, and the rest stays without repeats |
| `PeerLookups.StuckIsOver` | src/peer_lookup.rs:81-96 | a lookup that may send nothing and waits for nothing is over |
| `PeerLookups.OverdueOnlyWithLookup` | src/peer_lookup.rs:465-497 | although the expiry list is not in order of deadlines, an overdue query behind a head that is not due belongs to an overdue lookup |
| `PeerLookups.PeerLookupActor.PopClosest` | src/peer_lookup.rs:64-75 | a node that supplied the hash first, else the nearest of the frontier, and never one asked before |
| `PeerLookups.PeerLookupActor.DispatchOne` | src/peer_lookup.rs:332-403 | one more endpoint, the best choice, is asked, or the lookup may send nothing; no other query is touched |
| `PeerLookups.PeerLookupActor.DispatchMore` | src/peer_lookup.rs:332-404 | afterwards the lookup waits for a query and may send no more, or it is gone for a stated reason; nobody is asked if it had one at the start; the endpoints asked are filed as pending exactly if their datagram left; other lookups and the queries of active ones stay as they are |
| `PeerLookups.PeerLookupActor.FinishIfComplete` | src/peer_lookup.rs:499-507 | a lookup goes if and only if its receiver is gone, its deadline has passed, it has the peers it may hold, or it waits for nothing and has asked as many as allowed or has nobody left to ask; other lookups and their queries stay |
| `PeerLookups.PeerLookupActor.FinishLookup` | src/peer_lookup.rs:509-517 | a finished lookup leaves with all of its queries and no others |
| `PeerLookups.PeerLookupActor.StartLookup` | src/peer_lookup.rs:259-330 | a refused request, or one without any node to ask, opens no lookup, and the latter still costs its token; any other opens one lookup with its own deadline, which asks as many endpoints as it may and goes again only for a stated reason; no other lookup and none of their queries is touched |
| `PeerLookups.PeerLookupActor.HandleResponse` | src/peer_lookup.rs:406-463 | a reply ends its query and no other; past the deadline it ends the lookup, before it adds exactly its peers up to the limit, and exactly the first of its nodes not seen so far, as many as the frontier has room for; then the lookup asks as many as it may, nobody once it has enough peers, or goes for a stated reason; whatever was seen is asked or waits to be |
| `PeerLookups.NewcomersAre` | src/peer_lookup.rs:438-445 | the nodes that a reply adds were named by it and not seen before; and none of those is missed unless the frontier is full |
| `PeerLookups.PeerLookupActor.Expire` | src/peer_lookup.rs:465-497 | afterwards no active lookup and no pending query is past its deadline; a lookup goes only for a stated reason, and every query that is not overdue of a lookup that stays goes on waiting |
| `PeerLookups.PeerLookupActor.Safety` | src/peer_lookup.rs:215-517 | in every state between steps: outstanding is the number of pending queries, between one and the limit, and below it only if all allowed were sent or nobody is left to ask; none belongs to a finished lookup; no endpoint is asked twice; no more queries than allowed; and whatever was seen was asked or waits to be |
| `PeerLookups.PickSources` | src/peer_lookup.rs:288-295 | the suppliers to ask first: of the right family, each endpoint once, in order, eight at most |
| `PeerLookups.PeerLookupActor.FirstSteps` | src/peer_lookup.rs:278-327 | the first frontier is the nearest nodes without the suppliers, and no endpoint is in both |
| `PeerLookups.ReasonToEnd` | src/peer_lookup.rs:81-96 | the branches that end a lookup are exactly the stated reasons |
| `LookupSeeds.SeedsDistinct` | src/peer_lookup.rs:283-287 | the nodes nearest to a hash, in a routing snapshot of a sample of the reservoir, have different endpoints, as a lookup needs |
| `ReplyLimiters.ReserveQuota` | src/server.rs:77-83 | a tenth, rounded up, and never more than the total |
| `ReplyLimiters.SplitExact` | src/server.rs:307-315 | the workers' shares add up to the total and differ by one at most |
| `ReplyLimiters.SameSlot` | src/server.rs:190-232 | a forgotten source is served as if it had not been forgotten |
| `ReplyLimiters.TakeBudget` | src/server.rs:169-183 | a packet and its bytes are paid for together or not at all |
| `ReplyLimiters.RefundBudget` | src/server.rs:185-188 | a refund restores both levels |
| `ReplyLimiters.TrackedSlot` | src/server.rs:190-216 | a granted slot keeps every closed second within twice the rate |
| `ReplyLimiters.WorkerResponseLimiter.constructor` | src/server.rs:86-121 | the priority reserve and the regular budget are exactly the buckets of their quotas, full, and together the configured packet and byte rates |
| `ReplyLimiters.WorkerResponseLimiter.ExpireSources` | src/server.rs:218-232 | exactly the sources not replied to for a minute are forgotten, although deadlines of renewed sources are left in the list |
| `ReplyLimiters.WorkerResponseLimiter.AcquireSourceSlot` | src/server.rs:190-216 | grants a slot exactly as a limiter that forgets nothing |
| `ReplyLimiters.WorkerResponseLimiter.Acquire` | src/server.rs:123-167 | the verdict of a limiter that forgets nothing, whose windows move on with it; a refused reply leaves all four buckets at their refilled level, a granted one is paid from one budget |
| `ReplyLimiters.WorkerResponseLimiter.AtMostTwice` | src/server.rs:190-216 | no source gets more than twice its rate in any closed second |
| `ReplyLimiters.WorkerResponseLimiter.SameAnswers` | src/server.rs:123-232 | over every run the answers are those of a limiter that forgets no source |
| `ReplyLimiters.SlotIff` | src/server.rs:190-216 | a slot is granted if and only if the rate is positive and the source has no window, its window is over or its window has less than the rate; a granted slot starts a window or counts one |
| `ReplyLimiters.QuotaBurst` | src/server.rs:86-121 | both buckets of a quota start full and, if they have a rate, hold a fifth of a second of it, rounded up, but at least one packet or 512 bytes |
| `Bencoding.ReadWritten` | src/krpc.rs:137-187 | a strict reader of bencoding gives back every ordered value that is written |
| `Bencoding.BeforeIff` | src/krpc.rs:137-187 | the order that the keys of a reply are in: a proper beginning first, else by the first octet that differs |
| `Bencoding.WrittenValue` | src/krpc.rs:137-187 | the reader accepts nothing but what is written of a value with ascending keys, so that a value has one form only |
| `Krpc.PushUsize` | src/krpc.rs:189-201 | filling the digits from the back writes the shortest decimal form |
| `Krpc.ExpandCompact` | src/krpc.rs:22-31 | a compact node is read back exactly |
| `Krpc.DecodedCompact` | src/krpc.rs:12-51 | a compact list is read back as its valid nodes, in order |
| `Krpc.ForEachResponseNode` | src/krpc.rs:12-51 | visits the valid nodes of the admitted families in order, ignores lists of an impossible length, and counts them |
| `Krpc.EncodeResponse` | src/krpc.rs:137-187 | writes exactly the bencoded form of the reply's dictionary, with the nodes field left out when it would be empty |
| `Krpc.ReplyOrdered` | src/krpc.rs:137-187 | the keys of both dictionaries ascend |
| `Krpc.ReplyReadBack` | src/krpc.rs:12-51 | for every transaction, identity, token and node list the reply is one well-formed dictionary, and a reader that admits the chosen family finds exactly its valid nodes, in order, while any other finds none |
| `Krpc.BothRead` | src/krpc.rs:12-51 | of a reply with both lists a reader gets the valid nodes of the families it admits, IPv4 first |

## Left out

- RecentProbing.RecentProbes.Record: a known endpoint is only refreshed to a deadline that is not earlier, as every caller does, because the deadline is the non-decreasing clock plus a constant.
- PeerLookups.PeerLookupActor.StartLookup: the nearest nodes are taken to have different endpoints; `LookupSeeds.SeedsDistinct` proves that those of a snapshot of the reservoir have, and with a repeated endpoint a lookup could ask it twice.
- PeerLookups.PeerLookupActor.PopClosest: among frontier nodes at the same distance any may be chosen.
- ReplyLimiters.WorkerResponseLimiter.AtMostTwice: holds for each worker on its own, since workers share no windows.
- CrawlActors.CrawlActor.HandleBootstrapResolved: takes the selected addresses as given; which of the resolved ones are selected, and how failing bootstrap sources back off, is not modelled.
- SnapshotSampling.Sampler.Snapshot: the sampler's cursors and link array are a class of their own beside the reservoir, and a pass works on a copy of the link array.
- Tokio tasks, channels, sockets, DNS and timers: only the handlers are modelled.
- Shutdown of the actors, and the draining of jobs when the input closes.
- `src/metadata.rs`: peer connections, SHA-1 and the parsing of metadata; its failure cache would repeat the recent-probe refinement.
- `src/runtime_stats.rs` and the metrics: counters without a law beyond the conservation results.
- `src/udp_buffer.rs` and `src/udp_ingress.rs`: buffer pooling and forwarding of packets.
- `src/node_id.rs`, the choice of query targets and the random seeds of discovery: their results are arguments.
- Tokens of the server and the query encoders of `src/krpc.rs`, and its reader of peer lists.
- The rate limits and filters between a discovered hash and the scheduler (`emit_hash`); the deduplication they rely on is modelled.
- Publishing of snapshots between actors: a lookup takes the nearest nodes as an argument.
- Rounding of floating-point tokens and wrap-around of 64-bit counters.
- Bencoded integers and lists, which a reply does not contain.
- Bindings, example programs and callbacks.
