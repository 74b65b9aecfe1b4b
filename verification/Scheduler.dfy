/** The metadata scheduler: one actor that queues hashes, runs at most so many jobs, and schedules retries. */
module Schedulers {
  import opened Common
  import opened Nodes
  import opened Sorting
  import opened PendingQueues
  import opened RetryHistories

  const HASH_QUEUE_TTL: nat := 60 * SECONDS

  datatype Status = Accepted | FetchFailed | DeliveryRejected

  datatype Outcome = GateRejected | Deferred(delay: nat) | Completed(status: Status)

  /** A running job: the peers handed to it and what is known of its hash. */
  datatype Flight = Flight(scheduledPeers: set<Addr>, entry: Entry)

  // ---------- what holds between steps ----------

  ghost predicate FlightOk(h: Hash, f: Flight) {
    f.entry.hash == h && PeerList(f.entry.peers) && |f.scheduledPeers| <= MAX_CANDIDATES
  }

  /** No hash is both queued and in flight; the running tasks are the hashes in flight, one each, and no more
      than the limit. */
  ghost predicate Balanced(queued: set<Hash>, inFlight: map<Hash, Flight>, tasks: map<nat, Hash>, limit: nat) {
    queued !! inFlight.Keys && Flying(inFlight) && Manned(inFlight, tasks) && |inFlight| <= limit
  }

  ghost predicate Flying(inFlight: map<Hash, Flight>) {
    forall h :: h in inFlight ==> FlightOk(h, inFlight[h])
  }

  /** Tasks and hashes in flight are in one-to-one correspondence. */
  ghost predicate Manned(inFlight: map<Hash, Flight>, tasks: map<nat, Hash>) {
    Assigned(inFlight.Keys, tasks) && |tasks| == |inFlight|
  }

  ghost predicate Assigned(hashes: set<Hash>, tasks: map<nat, Hash>) {
    && (forall i :: i in tasks ==> tasks[i] in hashes)
    && (forall i, j :: i in tasks && j in tasks && tasks[i] == tasks[j] ==> i == j)
  }

  /** No record counts more failures than its limit, one with extra attempts has used up all others, there are no
      records when retries are off, and a hash that is queued or in flight still has an attempt open. */
  ghost predicate Disciplined(records: map<Hash, State>, busy: set<Hash>, policy: Policy) {
    && (forall h :: h in records ==> records[h].record.failures <= AttemptLimit(records[h].record, policy))
    && (forall h :: h in records && records[h].record.extraAttempts > 0 ==>
          AttemptLimit(records[h].record, policy) <= records[h].record.failures + 1)
    && (policy.maxAttempts == 0 ==> records == map[])
    && (forall h :: h in busy ==> Open(records, h, policy))
  }

  /** How one step may change the records it keeps: the expiry stays, failures grow by one at most, and an
      extra attempt is granted only to a record that had used all of its attempts. */
  ghost predicate RecordsMove(before: map<Hash, State>, after: map<Hash, State>, now: Instant, policy: Policy) {
    forall h :: h in before && h in after && before[h].record.expiresAt > now ==>
      var r, s := before[h].record, after[h].record;
      && s.expiresAt == r.expiresAt && r.failures <= s.failures <= r.failures + 1
      && r.extraAttempts <= s.extraAttempts <= r.extraAttempts + 1
      && (s.extraAttempts > r.extraAttempts ==> r.failures == s.failures == AttemptLimit(r, policy))
  }

  /** Records only lapse or stay; nothing else about them changes. */
  lemma SurvivorsDisciplined(records: map<Hash, State>, busy: set<Hash>, now: Instant, policy: Policy)
    requires Disciplined(records, busy, policy)
    ensures Disciplined(Surviving(records, now), busy, policy)
    ensures RecordsMove(records, Surviving(records, now), now, policy)
  {
  }

  lemma FewerBusy(records: map<Hash, State>, busy: set<Hash>, fewer: set<Hash>, policy: Policy)
    requires Disciplined(records, busy, policy) && fewer <= busy
    ensures Disciplined(records, fewer, policy)
  {
  }

  lemma DropDisciplined(records: map<Hash, State>, busy: set<Hash>, h: Hash, policy: Policy)
    requires Disciplined(records, busy, policy)
    ensures Disciplined(records - {h}, busy, policy) && forall now :: RecordsMove(records, records - {h}, now, policy)
  {
  }

  /** The counts of a run: jobs started, jobs ended, and the next task's number. */
  datatype Counts = Counts(started: nat, ended: nat, next: nat)

  /** The whole invariant, on values: who is queued, in flight and running, what is on record, and that every
      job ever started is still running or was counted at its end. */
  ghost predicate Sound(queued: set<Hash>, inFlight: map<Hash, Flight>, tasks: map<nat, Hash>, limit: nat,
                        records: map<Hash, State>, policy: Policy, c: Counts) {
    && limit > 0 && Balanced(queued, inFlight, tasks, limit) && Disciplined(records, queued + inFlight.Keys, policy)
    && c.started == |inFlight| + c.ended && forall i :: i in tasks ==> i < c.next
  }

  // ---------- noting an attempt ----------

  ghost function NoteState(records: map<Hash, State>, h: Hash, now: Instant, failed: bool, delay: nat,
                           policy: Policy): State {
    var live := Surviving(records, now);
    Recorded(if h in live then live[h] else Started(now, policy), now, failed, delay, policy)
  }

  lemma NoteDisciplined(records: map<Hash, State>, busy: set<Hash>, h: Hash, now: Instant, failed: bool, delay: nat,
                        s: State, policy: Policy)
    requires Disciplined(records, busy, policy) && Open(records, h, policy) && h !in busy && policy.maxAttempts > 0
    requires s.record == NoteState(records, h, now, failed, delay, policy).record
    ensures Disciplined(Surviving(records, now)[h := s], busy, policy)
    ensures s.record.failures < AttemptLimit(s.record, policy) ==>
              Disciplined(Surviving(records, now)[h := s], busy + {h}, policy)
    ensures RecordsMove(records, Surviving(records, now)[h := s], now, policy)
  {
    hide DueAfter, FailureDelay, RetryDeadline;
  }

  lemma ObserveDisciplined(records: map<Hash, State>, busy: set<Hash>, event: Event, now: Instant, policy: Policy)
    requires Disciplined(records, busy, policy) && event.hash in Surviving(records, now)
    ensures var live := Surviving(records, now);
      var s := Reconsidered(live[event.hash], event, now, policy);
      && Disciplined(live[event.hash := s], busy, policy)
      && (s.record.failures < AttemptLimit(s.record, policy) ==>
            Disciplined(live[event.hash := s], busy + {event.hash}, policy))
      && RecordsMove(records, live[event.hash := s], now, policy)
  {
    hide DueAfter, FailureDelay, RetryDeadline, Noted, Novel;
  }

  // ---------- the documented limit, and what exceeds it ----------

  /** A failure takes a record beyond the configured number of attempts if and only if the record was granted an
      extra one. */
  lemma OverrunIff(records: map<Hash, State>, busy: set<Hash>, h: Hash, now: Instant, policy: Policy)
    requires Disciplined(records, busy, policy) && Open(records, h, policy) && h in Surviving(records, now)
    ensures NoteState(records, h, now, true, 0, policy).record.failures > policy.maxAttempts
            <==> records[h].record.extraAttempts > 0
  {
    hide DueAfter, FailureDelay, RetryDeadline;
  }

  /** And an exhausted record is granted its first extra attempt if and only if an event names a peer or a node that
      is not on record. */
  lemma ExtraIff(s: State, event: Event, now: Instant, policy: Policy)
    ensures var t := Reconsidered(s, event, now, policy);
      t.record.extraAttempts > s.record.extraAttempts <==>
      && policy.maxAttempts > 0 && s.record.failures >= policy.maxAttempts + s.record.extraAttempts
      && s.record.extraAttempts < 2
      && ((event.peer.Some? && event.peer.value !in s.peers)
          || (event.node.Some? && event.node.value.addr !in s.sources))
  {
    hide DueAfter, FailureDelay, RetryDeadline, Noted;
  }

  /** With one attempt configured, a second one fails: after the first failure a new peer is heard of. */
  lemma OverrunExample(hash: Hash, peer: Addr, source: Source)
    ensures var policy := Policy(1, 60, 3600, 10, 86400);
      var first := Recorded(Started(0, policy), 0, true, 0, policy);
      var again := Reconsidered(first, Event(hash, Some(peer), None, source, 1), 1, policy);
      var second := Recorded(again, 2, true, 0, policy);
      && first.record.failures >= AttemptLimit(first.record, policy)
      && again.record.failures < AttemptLimit(again.record, policy)
      && second.record.failures == 2 > policy.maxAttempts
  {
    hide DueAfter, FailureDelay, RetryDeadline;
  }

  // ---------- the peers a job starts with ----------

  /** Candidates seen no longer than the queue's lifetime ago. */
  function Recent(peers: seq<Peer>, now: Instant): (r: seq<Peer>)
    ensures |r| <= |peers| && forall p :: p in r <==> p in peers && now <= p.discoveredAt + HASH_QUEUE_TTL
  {
    if peers == [] then []
    else (if now <= peers[0].discoveredAt + HASH_QUEUE_TTL then [peers[0]] else []) + Recent(peers[1..], now)
  }

  lemma Prepend(p: Peer, peers: seq<Peer>)
    requires DistinctPeers(peers) && NewestFirst(peers)
    requires forall q :: q in peers ==> q.addr != p.addr && q.discoveredAt <= p.discoveredAt
    ensures DistinctPeers([p] + peers) && NewestFirst([p] + peers)
  {
    var all := [p] + peers;
    forall i, j | 0 <= i < j < |all| ensures all[i].addr != all[j].addr && all[i].discoveredAt >= all[j].discoveredAt {
      assert all[j] == peers[j - 1] && peers[j - 1] in peers;
      if i > 0 { assert all[i] == peers[i - 1]; }
    }
  }

  lemma HeadNewest(peers: seq<Peer>)
    requires DistinctPeers(peers) && NewestFirst(peers) && peers != []
    ensures DistinctPeers(peers[1..]) && NewestFirst(peers[1..])
    ensures forall q :: q in peers[1..] ==> q.addr != peers[0].addr && q.discoveredAt <= peers[0].discoveredAt
  {
    assert forall i :: 0 <= i < |peers| - 1 ==> peers[1..][i] == peers[i + 1];
  }

  lemma {:induction false} RecentOrdered(peers: seq<Peer>, now: Instant)
    requires DistinctPeers(peers) && NewestFirst(peers)
    ensures DistinctPeers(Recent(peers, now)) && NewestFirst(Recent(peers, now))
  {
    if peers == [] {
    } else {
      HeadNewest(peers);
      RecentOrdered(peers[1..], now);
      hide DistinctPeers, NewestFirst;
      Prepend(peers[0], Recent(peers[1..], now));
      assert [] + Recent(peers[1..], now) == Recent(peers[1..], now);
    }
  }

  lemma RecentList(peers: seq<Peer>, now: Instant)
    requires PeerList(peers)
    ensures PeerList(Recent(peers, now))
  {
    RecentOrdered(peers, now);
    hide DistinctPeers, NewestFirst;
  }

  function StartPeers(e: Entry, now: Instant): seq<Peer> {
    if e.isRetry then e.peers else Recent(e.peers, now)
  }

  /** A job starts with the candidates that were seen within the time a hash may wait; a retry starts with them all. */
  lemma StartsWith(e: Entry, now: Instant, p: Peer)
    requires PeerList(e.peers)
    ensures p in StartPeers(e, now) <==> p in e.peers && (e.isRetry || now <= p.discoveredAt + HASH_QUEUE_TTL)
    ensures PeerList(StartPeers(e, now))
  {
    RecentList(e.peers, now);
  }

  function Addrs(peers: seq<Peer>): (s: set<Addr>)
    ensures |s| <= |peers|
  {
    if peers == [] then {} else {peers[0].addr} + Addrs(peers[1..])
  }

  lemma {:induction false} AddrsAre(peers: seq<Peer>, a: Addr)
    ensures a in Addrs(peers) <==> exists p :: p in peers && p.addr == a
  {
    if peers == [] {
      assert a !in Addrs(peers);
    } else {
      AddrsAre(peers[1..], a);
      assert forall p :: p in peers <==> p == peers[0] || p in peers[1..];
    }
  }

  // ---------- moving hashes between queue and jobs ----------

  lemma RequeueBalanced(q: set<Hash>, after: set<Hash>, inFlight: map<Hash, Flight>, tasks: map<nat, Hash>, limit: nat,
                        h: Hash)
    requires Balanced(q, inFlight, tasks, limit) && after <= q + {h} && h !in inFlight
    ensures Balanced(after, inFlight, tasks, limit)
  {
    hide FlightOk;
  }

  lemma LaunchFlying(inFlight: map<Hash, Flight>, h: Hash, f: Flight)
    requires Flying(inFlight) && FlightOk(h, f)
    ensures Flying(inFlight[h := f])
  {
    hide FlightOk;
  }

  lemma LaunchManned(inFlight: map<Hash, Flight>, tasks: map<nat, Hash>, id: nat, h: Hash, f: Flight)
    requires Manned(inFlight, tasks) && id !in tasks && h !in inFlight
    ensures Manned(inFlight[h := f], tasks[id := h]) && |inFlight[h := f]| == |inFlight| + 1 == |tasks| + 1
  {
    hide Assigned;
    AssignOne(inFlight.Keys, tasks, id, h);
    SizeAdd(inFlight, h, f);
    SizeAdd(tasks, id, h);
  }

  lemma AssignOne(hashes: set<Hash>, tasks: map<nat, Hash>, id: nat, h: Hash)
    requires Assigned(hashes, tasks) && id !in tasks && h !in hashes
    ensures Assigned(hashes + {h}, tasks[id := h])
  {
  }

  lemma LandManned(inFlight: map<Hash, Flight>, tasks: map<nat, Hash>, id: nat)
    requires Manned(inFlight, tasks) && id in tasks
    ensures tasks[id] in inFlight && Manned(inFlight - {tasks[id]}, tasks - {id})
    ensures |inFlight - {tasks[id]}| == |inFlight| - 1
  {
    SizeDrop(inFlight, tasks[id]);
    SizeDrop(tasks, id);
  }

  lemma LaunchBalanced(q: set<Hash>, after: set<Hash>, inFlight: map<Hash, Flight>, tasks: map<nat, Hash>, limit: nat,
                       id: nat, h: Hash, f: Flight)
    requires Balanced(q, inFlight, tasks, limit) && |tasks| < limit && id !in tasks
    requires h in q && after <= q - {h} && FlightOk(h, f)
    ensures Balanced(after, inFlight[h := f], tasks[id := h], limit) && |inFlight[h := f]| == |inFlight| + 1
  {
    hide FlightOk, Flying, Manned;
    LaunchFlying(inFlight, h, f);
    LaunchManned(inFlight, tasks, id, h, f);
  }

  lemma LandBalanced(q: set<Hash>, inFlight: map<Hash, Flight>, tasks: map<nat, Hash>, limit: nat, id: nat)
    requires Balanced(q, inFlight, tasks, limit) && id in tasks
    ensures tasks[id] in inFlight && FlightOk(tasks[id], inFlight[tasks[id]]) && tasks[id] !in q
    ensures Balanced(q, inFlight - {tasks[id]}, tasks - {id}, limit)
    ensures |inFlight - {tasks[id]}| == |inFlight| - 1
  {
    hide FlightOk, Manned;
    LandManned(inFlight, tasks, id);
    SizeDrop(inFlight, tasks[id]);
  }

  lemma RefreshBalanced(q: set<Hash>, inFlight: map<Hash, Flight>, tasks: map<nat, Hash>, limit: nat, h: Hash,
                        f: Flight)
    requires Balanced(q, inFlight, tasks, limit) && h in inFlight && FlightOk(h, f)
    ensures Balanced(q, inFlight[h := f], tasks, limit)
  {
    hide FlightOk;
    assert inFlight[h := f].Keys == inFlight.Keys;
  }

  lemma PushKeys(before: map<Hash, Entry>, after: map<Hash, Entry>, event: Event, now: Instant, ttl: nat, capacity: nat,
                 kind: PushKind, victim: Hash)
    requires PushStep(before, after, event, now, ttl, capacity, kind, victim)
    ensures after.Keys <= before.Keys + {event.hash}
  {
    hide Displaces, Refreshes, Blank;
    forall h | h in after && h != event.hash ensures h in before {
      assert h in after - {event.hash};
    }
  }

  lemma DeferKeys(before: map<Hash, Entry>, after: map<Hash, Entry>, entry: Entry, nextDue: Instant, expiresAt: Instant,
                  capacity: nat, ok: bool)
    requires DeferStep(before, after, entry, nextDue, expiresAt, capacity, ok)
    ensures after.Keys <= before.Keys + {entry.hash}
  {
  }

  /** Nothing more can be started now. */
  ghost predicate Idle(queued: map<Hash, Entry>) {
    Members(ReadyFresh, queued) == {} && Members(ReadyRetry, queued) == {}
  }

  lemma PopKeys(before: map<Hash, Entry>, now: Instant, streak: nat, r: Option<Entry>, after: nat)
    requires Popped(Promoted(Unexpired(before, now), now), streak, r, after)
    ensures Promoted(Unexpired(before, now), now).Keys <= before.Keys
    ensures r.Some? ==> r.value.hash in before && r.value.peers == before[r.value.hash].peers
    ensures r.None? ==> Idle(Promoted(Unexpired(before, now), now))
  {
  }

  lemma QueuedPeers(entries: map<Hash, Entry>, ttl: nat, capacity: nat)
    requires Bounded(entries, ttl, capacity)
    ensures forall h :: h in entries ==> PeerList(entries[h].peers)
  {
  }

  /** The flight a job starts as. */
  function Launched(e: Entry, peers: seq<Peer>): Flight {
    Flight(Addrs(peers), e.(peers := peers))
  }

  lemma LaunchedOk(e: Entry, now: Instant)
    requires PeerList(e.peers)
    ensures FlightOk(e.hash, Launched(e, Take(StartPeers(e, now), MAX_CANDIDATES)))
    ensures Take(StartPeers(e, now), MAX_CANDIDATES) == StartPeers(e, now)
  {
    RecentList(e.peers, now);
  }

  method Now() returns (now: Instant)
  {
    now := *;
  }

  class Scheduler {
    const maxConcurrent: nat
    const hasLookup: bool
    const queue: PendingQueue
    const history: RetryHistory
    var inFlight: map<Hash, Flight>
    var tasks: map<nat, Hash>
    var nextTask: nat
    var received: nat
    var dispatched: nat
    var completed: nat
    var rejected: nat
    var deferred: nat

    ghost predicate Parts()
      reads queue, history
    {
      queue.Valid() && history.Valid() && queue.ttl == HASH_QUEUE_TTL
    }

    ghost function Tally(): Counts
      reads this
    {
      Counts(dispatched, completed + rejected + deferred, nextTask)
    }

    ghost predicate Valid()
      reads this, queue, history
    {
      && Parts()
      && Sound(queue.entries.Keys, inFlight, tasks, maxConcurrent, history.entries, history.policy, Tally())
    }

    constructor (queueSize: nat, concurrency: nat, lookup: bool, policy: Policy)
      ensures Valid() && fresh(queue) && fresh(history) && queue.entries == map[] && inFlight == map[]
      ensures maxConcurrent == (if concurrency == 0 then 1 else concurrency) && history.policy == policy
      ensures hasLookup == lookup && queue.capacity == (if queueSize == 0 then 1 else queueSize) && received == 0
    {
      queue := new PendingQueue(queueSize, HASH_QUEUE_TTL);
      history := new RetryHistory(policy);
      maxConcurrent := if concurrency == 0 then 1 else concurrency;
      hasLookup := lookup;
      inFlight, tasks, nextTask := map[], map[], 0;
      received, dispatched, completed, rejected, deferred := 0, 0, 0, 0, 0;
    }

    /** A discovery of a hash whose job is running: unless it is stale, merge it and hand a peer the job does
        not have yet over to it, if its channel takes it. No peer is handed to a job twice. */
    method EnqueueFlying(event: Event, now: Instant, sent: bool) returns (handed: bool)
      requires Valid() && event.hash in inFlight
      modifies this`received, this`inFlight
      ensures Valid() && FlightStep(old(inFlight), inFlight, event, now, sent) && received == old(received) + 1
      ensures event.hash in inFlight
      ensures handed <==> inFlight[event.hash].scheduledPeers != old(inFlight[event.hash].scheduledPeers)
    {
      hide Parts, Sound, PeerList, FlightStep, MergedPeers, Merged;
      received, handed := received + 1, false;
      if now > event.discoveredAt + HASH_QUEUE_TTL {
        FlightStale(inFlight, event, now, sent);
        return;
      }
      FlyingOk(queue.entries.Keys, inFlight, tasks, maxConcurrent, history.entries, history.policy, Tally(),
               event.hash);
      var f := inFlight[event.hash];
      var entry, isNew := MergeCandidate(f.entry, event);
      var peers := f.scheduledPeers;
      if event.peer.Some? && event.peer.value !in peers && |peers| < MAX_CANDIDATES && sent {
        peers, handed := peers + {event.peer.value}, true;
      }
      FlightMerged(f, event, now, sent, Flight(peers, entry));
      FlightMoved(queue.entries.Keys, inFlight, tasks, maxConcurrent, history.entries, history.policy, Tally(), event,
                  now, sent, Flight(peers, entry));
      inFlight := inFlight[event.hash := Flight(peers, entry)];
    }

    /** A discovery of a hash that is not running: weigh it against the hash's record, then queue it; with a
        record, as a retry. `mid` is the queue between the push and the deferral. */
    method EnqueueIdle(event: Event, now: Instant)
      returns (ghost mid: map<Hash, Entry>, ghost kind: PushKind, ghost victim: Hash)
      requires Valid() && event.hash !in inFlight
      modifies this`received, queue, history
      ensures Valid() && RecordsMove(old(history.entries), history.entries, now, history.policy)
      ensures EnqueueStep(old(history.entries), old(queue.entries), history.entries, queue.entries, event, now,
                          history.policy, queue.capacity, mid, kind, victim)
      ensures received == old(received) + 1
    {
      hide PendingQueue.Valid, RetryHistory.Valid, Sound, QueueStep, EnqueueStep, Surviving, Reconsidered, RecordsMove;
      received := received + 1;
      ghost var queued, records := queue.entries, history.entries;
      var record := history.ObserveEvent(event, now);
      if record.Some? && record.value.failures >= AttemptLimit(record.value, history.policy) {
        mid, kind, victim := queue.entries, Stale, event.hash;
        EnqueueRefused(queued, inFlight, tasks, maxConcurrent, records, history.policy, Tally(), event, now,
                       history.entries, queue.capacity, record, mid, kind, victim);
        return;
      }
      mid, kind, victim := QueueEvent(queue, event, record, now);
      EnqueueTaken(queued, inFlight, tasks, maxConcurrent, records, history.policy, Tally(), event, now,
                   history.entries, queue.capacity, record, mid, kind, victim, queue.entries);
    }

    /** Start one job, if one is ready; a hash left without candidates and without a lookup is dropped. */
    method DispatchOne() returns (r: Option<Entry>, ghost popped: Instant, ghost started: Instant)
      requires Valid() && |tasks| < maxConcurrent
      modifies this`inFlight, this`tasks, this`nextTask, this`dispatched, queue
      ensures Valid() && DispatchStep(old(queue.entries), queue.entries, old(inFlight), inFlight, r.Some?, hasLookup)
      ensures Popped(Promoted(Unexpired(old(queue.entries), popped), popped), old(queue.freshDispatches), r,
          queue.freshDispatches)
      ensures queue.entries ==
        Promoted(Unexpired(old(queue.entries), popped), popped) - (if r.Some? then {r.value.hash} else {})
      ensures if r.Some? && (StartPeers(r.value, started) != [] || hasLookup)
              then inFlight == old(inFlight)[r.value.hash := Launched(r.value,
                  Take(StartPeers(r.value, started), MAX_CANDIDATES))]
                   && tasks == old(tasks)[old(nextTask) := r.value.hash] && dispatched == old(dispatched) + 1
              else inFlight == old(inFlight) && tasks == old(tasks) && dispatched == old(dispatched)
    {
      hide PendingQueue.Valid, RetryHistory.Valid, Sound, DispatchStep, Popped, Promoted, Unexpired, PeerList,
           StartPeers;
      ghost var queued := queue.entries;
      var now := Now();
      popped, started := now, now;
      r := PopQueued(queue, now);
      if r.None? {
        DispatchNone(queued, queue.entries, inFlight, tasks, maxConcurrent, history.entries, history.policy, Tally(),
                     hasLookup);
        return;
      }
      var start := Now();
      started := start;
      var peers := Take(StartPeers(r.value, start), MAX_CANDIDATES);
      if peers == [] && !hasLookup {
        DispatchDropped(queued, queue.entries, inFlight, tasks, maxConcurrent, history.entries, history.policy, Tally(),
                        hasLookup, r.value, start);
        return;
      }
      DispatchLaunched(queued, queue.entries, inFlight, tasks, maxConcurrent, history.entries, history.policy, Tally(),
                       hasLookup, r.value, start);
      inFlight := inFlight[r.value.hash := Launched(r.value, peers)];
      tasks := tasks[nextTask := r.value.hash];
      nextTask, dispatched := nextTask + 1, dispatched + 1;
    }

    /** Start jobs until the limit is reached or nothing is ready. */
    method DispatchReady()
      requires Valid()
      modifies this`inFlight, this`tasks, this`nextTask, this`dispatched, queue
      ensures Valid() && (|tasks| == maxConcurrent || Idle(queue.entries))
      ensures Dispatches(old(queue.entries), queue.entries, old(inFlight), inFlight, hasLookup)
    {
      hide PendingQueue.Valid, RetryHistory.Valid, Sound, DispatchStep, Dispatches, Promoted, Idle;
      ghost var queued := queue.entries;
      var now := Now();
      queue.PromoteReady(now);
      DispatchesNone(queued, now, inFlight, hasLookup);
      WithinLimit(queue.entries.Keys, inFlight, tasks, maxConcurrent, history.entries, history.policy, Tally());
      while |tasks| < maxConcurrent
        invariant Valid() && |tasks| <= maxConcurrent
        invariant Dispatches(old(queue.entries), queue.entries, old(inFlight), inFlight, hasLookup)
        decreases |queue.entries|
      {
        ghost var mid, flying := queue.entries, inFlight;
        var r; ghost var popped, started;
        r, popped, started := DispatchOne();
        DispatchesMore(old(queue.entries), mid, queue.entries, old(inFlight), flying, inFlight, r.Some?, hasLookup);
        WithinLimit(queue.entries.Keys, inFlight, tasks, maxConcurrent, history.entries, history.policy, Tally());
        if r.None? {
          break;
        }
      }
    }

    /** Weigh a finished job against the policy and queue its hash again as a retry if an attempt is left. */
    method ScheduleRetry(entry: Entry, failed: bool, delay: nat, now: Instant)
      requires Parts() && PeerList(entry.peers) && entry.hash !in inFlight
      requires Sound(queue.entries.Keys, inFlight, tasks, maxConcurrent, history.entries, history.policy, Tally())
      requires Open(history.entries, entry.hash, history.policy) && entry.hash !in queue.entries
      modifies queue, history
      ensures Valid() && RecordsMove(old(history.entries), history.entries, now, history.policy)
      ensures RetryStep(old(history.entries), history.entries, old(queue.entries), queue.entries, entry, failed, delay,
                        now, history.policy, queue.capacity)
    {
      hide PendingQueue.Valid, RetryHistory.Valid, Sound, RetryStep, PeerList, DeferStep, Noting, Open, RecordsMove;
      ghost var records, queued := history.entries, queue.entries;
      if history.policy.maxAttempts == 0 || (entry.isRetry && entry.expiresAt <= now) {
        RetryNone(records, queued, entry, failed, delay, now, history.policy, queue.capacity);
        return;
      }
      var record := NoteEntry(history, entry, now, failed, delay);
      if record.None? || record.value.failures >= AttemptLimit(record.value, history.policy)
         || record.value.nextDue >= record.value.expiresAt {
        RetryRefused(records, history.entries, queued, inFlight, tasks, maxConcurrent, history.policy, Tally(), entry,
                     failed, delay, now, queue.capacity, record);
        return;
      }
      var ok := queue.Defer(entry, record.value.nextDue, record.value.expiresAt);
      RetryTaken(records, history.entries, queued, queue.entries, inFlight, tasks, maxConcurrent, history.policy,
                 Tally(), entry, failed, delay, now, queue.capacity, record, ok);
    }

    /** A task ended, or was lost, which counts as a failed fetch. The hash of a running task is always in flight. */
    method HandleJobResult(id: nat, outcome: Outcome, now: Instant)
      requires Valid() && id in tasks
      modifies this`inFlight, this`tasks, this`completed, this`rejected, this`deferred, queue, history
      ensures Valid() && old(tasks)[id] in old(inFlight)
      ensures RecordsMove(old(history.entries), history.entries, now, history.policy)
      ensures tasks == old(tasks) - {id} && inFlight == old(inFlight) - {old(tasks)[id]}
      ensures rejected == old(rejected) + (if outcome.GateRejected? then 1 else 0)
      ensures deferred == old(deferred) + (if outcome.Deferred? then 1 else 0)
      ensures completed == old(completed) + (if outcome.Completed? then 1 else 0)
      ensures FinishStep(old(history.entries), history.entries, old(queue.entries), queue.entries,
                         old(inFlight)[old(tasks)[id]].entry, outcome, now, history.policy, queue.capacity)
    {
      hide PendingQueue.Valid, RetryHistory.Valid, Sound, RetryStep, FinishStep, PeerList, FlightOk, RecordsMove;
      var hash := tasks[id];
      SoundLand(queue.entries.Keys, inFlight, tasks, maxConcurrent, history.entries, history.policy, Tally(), id);
      var entry := inFlight[hash].entry;
      ghost var records, queued := history.entries, queue.entries;
      inFlight, tasks := inFlight - {hash}, tasks - {id};
      if outcome.GateRejected? {
        rejected := rejected + 1;
      } else if outcome.Deferred? {
        deferred := deferred + 1;
      } else {
        completed := completed + 1;
      }
      Settle(entry, outcome, now);
    }

    /** The maintenance tick drops what has expired. */
    method Maintain(now: Instant) returns (expired: nat)
      requires Valid()
      modifies queue
      ensures Valid() && queue.entries == Unexpired(old(queue.entries), now)
      ensures expired == |old(queue.entries)| - |queue.entries|
    {
      hide PendingQueue.Valid, RetryHistory.Valid, Sound;
      ghost var queued := queue.entries;
      expired := queue.Expire(now);
      SoundFewer(queued.Keys, queue.entries.Keys, inFlight, tasks, maxConcurrent, history.entries, history.policy,
                 Tally());
    }

    /** What every step keeps, spelled out: no hash is queued and in flight at once, jobs never exceed the limit,
        every job started is running or ended in one of three ways, and a record counts at most two failures
        more than the policy's limit. */
    lemma Safety()
      requires Valid()
      ensures queue.entries.Keys !! inFlight.Keys && |tasks| == |inFlight| <= maxConcurrent
      ensures dispatched == |inFlight| + completed + rejected + deferred
      ensures forall h :: h in history.entries ==> history.entries[h].record.failures <= history.policy.maxAttempts + 2
      ensures history.policy.maxAttempts == 0 ==> history.entries == map[]
    {
      hide PendingQueue.Valid, FlightOk, Open, Scheduled;
      forall h | h in history.entries ensures history.entries[h].record.failures <= history.policy.maxAttempts + 2 {
        assert StateOk(history.entries[h]);
      }
    }

    /** What becomes of a hash whose job has just ended. */
    method Settle(entry: Entry, outcome: Outcome, now: Instant)
      requires Valid() && PeerList(entry.peers) && entry.hash !in inFlight && entry.hash !in queue.entries
      requires Open(history.entries, entry.hash, history.policy)
      modifies queue, history
      ensures Valid() && RecordsMove(old(history.entries), history.entries, now, history.policy)
      ensures FinishStep(old(history.entries), history.entries, old(queue.entries), queue.entries, entry, outcome, now,
                         history.policy, queue.capacity)
    {
      hide PendingQueue.Valid, RetryHistory.Valid, Sound, RetryStep, PeerList, Open, RecordsMove;
      assert queue.entries - {entry.hash} == queue.entries;
      var removed := queue.Withdraw(entry.hash);
      if outcome.Deferred? {
        ScheduleRetry(entry, false, outcome.delay, now);
      } else if outcome.GateRejected? || outcome.status == Accepted {
        SoundForget(queue.entries.Keys, inFlight, tasks, maxConcurrent, history.entries, history.policy, Tally(),
                    entry.hash);
        history.Remove(entry.hash);
      } else {
        ScheduleRetry(entry, true, 0, now);
      }
    }
  }

  /** What pushing an event, and deferring its hash when it has a record, does to the queue. */
  ghost predicate QueueStep(before: map<Hash, Entry>, after: map<Hash, Entry>, event: Event, record: Option<Record>,
                            now: Instant, capacity: nat, mid: map<Hash, Entry>, kind: PushKind, victim: Hash) {
    && PushStep(before, mid, event, now, HASH_QUEUE_TTL, capacity, kind, victim)
    && if record.None? || event.hash !in mid then after == mid
       else mid[event.hash].hash == event.hash && exists ok ::
         DeferStep(mid, after, mid[event.hash], record.value.nextDue, record.value.expiresAt, capacity, ok)
  }

  method QueueEvent(queue: PendingQueue, event: Event, record: Option<Record>, now: Instant)
    returns (ghost mid: map<Hash, Entry>, ghost kind: PushKind, ghost victim: Hash)
    requires queue.Valid() && queue.ttl == HASH_QUEUE_TTL
    modifies queue
    ensures queue.Valid()
    ensures QueueStep(old(queue.entries), queue.entries, event, record, now, queue.capacity, mid, kind, victim)
  {
    hide PendingQueue.Valid, PushStep, DeferStep, PeerList;
    kind, victim := queue.Push(event, now);
    mid := queue.entries;
    if record.Some? {
      var removed := queue.Withdraw(event.hash);
      if removed.Some? {
        ghost var less := queue.entries;
        var ok := queue.Defer(removed.value, record.value.nextDue, record.value.expiresAt);
        DeferAgain(mid, less, queue.entries, removed.value, record.value.nextDue, record.value.expiresAt,
                   queue.capacity, ok);
      } else {
        assert mid - {event.hash} == mid;
      }
    }
  }

  lemma QueueKeys(before: map<Hash, Entry>, after: map<Hash, Entry>, event: Event, record: Option<Record>, now: Instant,
                  capacity: nat, mid: map<Hash, Entry>, kind: PushKind, victim: Hash)
    requires QueueStep(before, after, event, record, now, capacity, mid, kind, victim)
    ensures after.Keys <= before.Keys + {event.hash}
  {
    PushKeys(before, mid, event, now, HASH_QUEUE_TTL, capacity, kind, victim);
    hide PushStep;
  }

  /** A discovery of a hash with no attempt left changes nothing but the evidence on record. */
  lemma EnqueueRefused(queued: map<Hash, Entry>, inFlight: map<Hash, Flight>, tasks: map<nat, Hash>, limit: nat,
                       records: map<Hash, State>, policy: Policy, c: Counts, event: Event, now: Instant,
                       after: map<Hash, State>, capacity: nat, record: Option<Record>, mid: map<Hash, Entry>,
                       kind: PushKind, victim: Hash)
    requires Sound(queued.Keys, inFlight, tasks, limit, records, policy, c)
    requires Observed(records, after, event, now, policy, record)
    requires record.Some? && record.value.failures >= AttemptLimit(record.value, policy)
    ensures Sound(queued.Keys, inFlight, tasks, limit, after, policy, c) && RecordsMove(records, after, now, policy)
    ensures EnqueueStep(records, queued, after, queued, event, now, policy, capacity, mid, kind, victim)
  {
    hide Balanced, Disciplined, Surviving, Reconsidered, RecordsMove;
    ObserveMoves(records, queued.Keys + inFlight.Keys, event, now, policy);
  }

  lemma EnqueueTaken(queued: map<Hash, Entry>, inFlight: map<Hash, Flight>, tasks: map<nat, Hash>, limit: nat,
                     records: map<Hash, State>, policy: Policy, c: Counts, event: Event, now: Instant,
                     after: map<Hash, State>, capacity: nat, record: Option<Record>, mid: map<Hash, Entry>,
                     kind: PushKind, victim: Hash, queuedAfter: map<Hash, Entry>)
    requires Sound(queued.Keys, inFlight, tasks, limit, records, policy, c) && event.hash !in inFlight
    requires Observed(records, after, event, now, policy, record)
    requires record.None? || record.value.failures < AttemptLimit(record.value, policy)
    requires QueueStep(queued, queuedAfter, event, record, now, capacity, mid, kind, victim)
    ensures Sound(queuedAfter.Keys, inFlight, tasks, limit, after, policy, c)
    ensures RecordsMove(records, after, now, policy)
    ensures EnqueueStep(records, queued, after, queuedAfter, event, now, policy, capacity, mid, kind, victim)
  {
    hide Balanced, Disciplined, RecordsMove, QueueStep, Observed, EnqueueStep;
    QueueKeys(queued, queuedAfter, event, record, now, capacity, mid, kind, victim);
    ObservedOpen(records, queued.Keys + inFlight.Keys, event, now, after, policy, record);
    EnqueueAs(records, queued, after, queuedAfter, event, now, policy, capacity, record, mid, kind, victim);
    SoundRequeue(queued.Keys, queuedAfter.Keys, inFlight, tasks, limit, after, policy, c, event.hash);
  }

  lemma SoundRequeue(q: set<Hash>, after: set<Hash>, inFlight: map<Hash, Flight>, tasks: map<nat, Hash>, limit: nat,
                     records: map<Hash, State>, policy: Policy, c: Counts, h: Hash)
    requires limit > 0 && Balanced(q, inFlight, tasks, limit) && h !in inFlight && after <= q + {h}
    requires Disciplined(records, q + inFlight.Keys + {h}, policy)
    requires c.started == |inFlight| + c.ended && forall i :: i in tasks ==> i < c.next
    ensures Sound(after, inFlight, tasks, limit, records, policy, c)
  {
    hide Balanced, Disciplined;
    RequeueBalanced(q, after, inFlight, tasks, limit, h);
    FewerBusy(records, q + inFlight.Keys + {h}, after + inFlight.Keys, policy);
  }

  lemma ObservedOpen(records: map<Hash, State>, busy: set<Hash>, event: Event, now: Instant, after: map<Hash, State>,
                     policy: Policy, record: Option<Record>)
    requires Disciplined(records, busy, policy) && Observed(records, after, event, now, policy, record)
    requires record.None? || record.value.failures < AttemptLimit(record.value, policy)
    ensures Disciplined(after, busy + {event.hash}, policy) && RecordsMove(records, after, now, policy)
  {
    hide Disciplined, Surviving, Reconsidered, RecordsMove;
    ObserveMoves(records, busy, event, now, policy);
  }

  lemma EnqueueAs(records: map<Hash, State>, queued: map<Hash, Entry>, after: map<Hash, State>,
                  queuedAfter: map<Hash, Entry>, event: Event, now: Instant, policy: Policy, capacity: nat,
                  record: Option<Record>, mid: map<Hash, Entry>, kind: PushKind, victim: Hash)
    requires Observed(records, after, event, now, policy, record)
    requires record.None? || record.value.failures < AttemptLimit(record.value, policy)
    requires QueueStep(queued, queuedAfter, event, record, now, capacity, mid, kind, victim)
    ensures EnqueueStep(records, queued, after, queuedAfter, event, now, policy, capacity, mid, kind, victim)
  {
    hide Surviving, Reconsidered, QueueStep;
  }

  /** What weighing an event against the records leaves and returns. */
  ghost predicate Observed(records: map<Hash, State>, after: map<Hash, State>, event: Event, now: Instant,
                           policy: Policy, record: Option<Record>) {
    var live := Surviving(records, now);
    if event.hash !in live then record == None && after == live
    else
      var s := Reconsidered(live[event.hash], event, now, policy);
      record == Some(s.record) && after == live[event.hash := s]
  }

  /** Both outcomes of weighing an event against the records. */
  lemma ObserveMoves(records: map<Hash, State>, busy: set<Hash>, event: Event, now: Instant, policy: Policy)
    requires Disciplined(records, busy, policy)
    ensures var live := Surviving(records, now);
      if event.hash !in live then
        Disciplined(live, busy + {event.hash}, policy) && RecordsMove(records, live, now, policy)
      else
        var s := Reconsidered(live[event.hash], event, now, policy);
        && Disciplined(live[event.hash := s], busy, policy) && RecordsMove(records, live[event.hash := s], now, policy)
        && (s.record.failures < AttemptLimit(s.record, policy) ==>
              Disciplined(live[event.hash := s], busy + {event.hash}, policy))
  {
    if event.hash in Surviving(records, now) {
      ObserveDisciplined(records, busy, event, now, policy);
    } else {
      SurvivorsDisciplined(records, busy, now, policy);
    }
  }

  lemma DeferAgain(mid: map<Hash, Entry>, less: map<Hash, Entry>, after: map<Hash, Entry>, entry: Entry,
                   nextDue: Instant, expiresAt: Instant, capacity: nat, ok: bool)
    requires less == mid - {entry.hash} && DeferStep(less, after, entry, nextDue, expiresAt, capacity, ok)
    ensures DeferStep(mid, after, entry, nextDue, expiresAt, capacity, ok) && after.Keys <= mid.Keys + {entry.hash}
  {
    assert less - {entry.hash} == less;
  }

  /** What a discovery does to the jobs when its hash is in flight. */
  ghost predicate FlightStep(before: map<Hash, Flight>, after: map<Hash, Flight>, event: Event, now: Instant,
                             sent: bool) {
    && event.hash in before && event.hash in after && after == before[event.hash := after[event.hash]]
    && var f, g := before[event.hash], after[event.hash];
       if now > event.discoveredAt + HASH_QUEUE_TTL then g == f
       else FlightMerges(f, g, event, sent)
  }

  lemma FlightStale(inFlight: map<Hash, Flight>, event: Event, now: Instant, sent: bool)
    requires event.hash in inFlight && now > event.discoveredAt + HASH_QUEUE_TTL
    ensures FlightStep(inFlight, inFlight, event, now, sent)
  {
  }

  /** How a flight takes in a discovery. */
  ghost predicate FlightMerges(f: Flight, g: Flight, event: Event, sent: bool) {
    && MergedPeers(f.entry.peers, event, g.entry.peers) && g.entry == Merged(f.entry, event, g.entry.peers)
    && g.scheduledPeers == f.scheduledPeers + (if event.peer.Some? && |f.scheduledPeers| < MAX_CANDIDATES && sent
                                               then {event.peer.value} else {})
  }

  lemma FlightMerged(f: Flight, event: Event, now: Instant, sent: bool, g: Flight)
    requires PeerList(g.entry.peers) && MergedPeers(f.entry.peers, event, g.entry.peers)
    requires g.entry == Merged(f.entry, event, g.entry.peers) && FlightOk(event.hash, f)
    requires g.scheduledPeers == (if event.peer.Some? && event.peer.value !in f.scheduledPeers
                                     && |f.scheduledPeers| < MAX_CANDIDATES && sent
                                  then f.scheduledPeers + {event.peer.value} else f.scheduledPeers)
    ensures FlightMerges(f, g, event, sent) && FlightOk(event.hash, g)
  {
    hide PeerList, MergedPeers;
  }

  lemma FlightMoved(q: set<Hash>, inFlight: map<Hash, Flight>, tasks: map<nat, Hash>, limit: nat,
                    records: map<Hash, State>, policy: Policy, c: Counts, event: Event, now: Instant, sent: bool,
                    g: Flight)
    requires Sound(q, inFlight, tasks, limit, records, policy, c) && event.hash in inFlight
    requires now <= event.discoveredAt + HASH_QUEUE_TTL
    requires FlightMerges(inFlight[event.hash], g, event, sent) && FlightOk(event.hash, g)
    ensures Sound(q, inFlight[event.hash := g], tasks, limit, records, policy, c)
    ensures FlightStep(inFlight, inFlight[event.hash := g], event, now, sent)
  {
    hide Balanced, Disciplined, FlightOk, FlightMerges;
    RefreshBalanced(q, inFlight, tasks, limit, event.hash, g);
    assert inFlight[event.hash := g].Keys == inFlight.Keys;
  }

  /** What a discovery does to the records and the queue when its hash is not in flight. */
  ghost predicate EnqueueStep(records: map<Hash, State>, queued: map<Hash, Entry>, recordsAfter: map<Hash, State>,
                              queuedAfter: map<Hash, Entry>, event: Event, now: Instant, policy: Policy, capacity: nat,
                              mid: map<Hash, Entry>, kind: PushKind, victim: Hash) {
    var live := Surviving(records, now);
    if event.hash !in live then
      recordsAfter == live && QueueStep(queued, queuedAfter, event, None, now, capacity, mid, kind, victim)
    else
      var s := Reconsidered(live[event.hash], event, now, policy);
      && recordsAfter == live[event.hash := s]
      && if s.record.failures >= AttemptLimit(s.record, policy) then queuedAfter == queued
         else QueueStep(queued, queuedAfter, event, Some(s.record), now, capacity, mid, kind, victim)
  }

  lemma FlyingOk(q: set<Hash>, inFlight: map<Hash, Flight>, tasks: map<nat, Hash>, limit: nat,
                 records: map<Hash, State>, policy: Policy, c: Counts, h: Hash)
    requires Sound(q, inFlight, tasks, limit, records, policy, c) && h in inFlight
    ensures FlightOk(h, inFlight[h])
  {
    hide FlightOk;
  }

  // ---------- starting jobs ----------

  /** What starting one job does: a hash leaves the queue for good, and flies unless it has nothing to try. */
  ghost predicate DispatchStep(queued: map<Hash, Entry>, after: map<Hash, Entry>, flying: map<Hash, Flight>,
                               flyingAfter: map<Hash, Flight>, more: bool, hasLookup: bool) {
    && after.Keys <= queued.Keys
    && if !more then Idle(after) && flyingAfter == flying
       else
         && |after| < |queued|
         && (flyingAfter == flying || exists h, f :: Flies(queued, after, flying, flyingAfter, h, f, hasLookup))
  }

  /** Hash `h` left the queue and flies as `f`, with a candidate to try or a lookup to find one. */
  ghost predicate Flies(queued: map<Hash, Entry>, after: map<Hash, Entry>, flying: map<Hash, Flight>,
                        flyingAfter: map<Hash, Flight>, h: Hash, f: Flight, hasLookup: bool) {
    && h in queued && h !in after && h !in flying && flyingAfter == flying[h := f]
    && (f.entry.peers != [] || hasLookup) && f.scheduledPeers == Addrs(f.entry.peers)
  }

  /** What a round of starting jobs does: running jobs stay as they are, new ones come from the queue. */
  ghost predicate Dispatches(queued: map<Hash, Entry>, after: map<Hash, Entry>, flying: map<Hash, Flight>,
                             flyingAfter: map<Hash, Flight>, hasLookup: bool) {
    && after.Keys <= queued.Keys
    && (forall h :: h in flying ==> h in flyingAfter && flyingAfter[h] == flying[h])
    && (forall h :: h in flyingAfter && h !in flying ==>
          h in queued && h !in after && (flyingAfter[h].entry.peers != [] || hasLookup))
  }

  lemma DispatchesNone(queued: map<Hash, Entry>, now: Instant, flying: map<Hash, Flight>, hasLookup: bool)
    ensures Dispatches(queued, Promoted(queued, now), flying, flying, hasLookup)
    ensures Promoted(queued, now).Keys == queued.Keys
  {
  }

  lemma DispatchesMore(queued: map<Hash, Entry>, mid: map<Hash, Entry>, after: map<Hash, Entry>,
                       flying: map<Hash, Flight>, flyingMid: map<Hash, Flight>, flyingAfter: map<Hash, Flight>,
                       more: bool, hasLookup: bool)
    requires Dispatches(queued, mid, flying, flyingMid, hasLookup)
    requires DispatchStep(mid, after, flyingMid, flyingAfter, more, hasLookup)
    ensures Dispatches(queued, after, flying, flyingAfter, hasLookup)
    ensures if more then |after| < |mid| else Idle(after)
  {
    hide Idle, Addrs;
  }

  lemma WithinLimit(q: set<Hash>, inFlight: map<Hash, Flight>, tasks: map<nat, Hash>, limit: nat,
                    records: map<Hash, State>, policy: Policy, c: Counts)
    requires Sound(q, inFlight, tasks, limit, records, policy, c)
    ensures |tasks| <= limit
  {
  }

  /** Pop the next ready hash, with what its entry is known to hold. */
  method PopQueued(queue: PendingQueue, now: Instant) returns (r: Option<Entry>)
    requires queue.Valid()
    modifies queue
    ensures queue.Valid() && Takes(old(queue.entries), queue.entries, r)
    ensures Popped(Promoted(Unexpired(old(queue.entries), now), now), old(queue.freshDispatches), r,
        queue.freshDispatches)
    ensures queue.entries == Promoted(Unexpired(old(queue.entries), now), now) - (if r.Some? then {r.value.hash}
                                                                                  else {})
  {
    hide AllIndexed, Bounded, Popped, Promoted, Unexpired, PeerList, Takes;
    ghost var queued, streak := queue.entries, queue.freshDispatches;
    QueuedPeers(queued, queue.ttl, queue.capacity);
    r := queue.PopNewestReady(now);
    TakesPop(queued, queue.entries, now, streak, r, queue.freshDispatches);
  }

  /** A pop took `r`, or nothing was ready. */
  ghost predicate Takes(queued: map<Hash, Entry>, after: map<Hash, Entry>, r: Option<Entry>) {
    && after.Keys <= queued.Keys && (r.None? ==> Idle(after))
    && (r.Some? ==> r.value.hash in queued && r.value.hash !in after && PeerList(r.value.peers))
  }

  lemma TakesPop(queued: map<Hash, Entry>, after: map<Hash, Entry>, now: Instant, streak: nat, r: Option<Entry>,
                 next: nat)
    requires Popped(Promoted(Unexpired(queued, now), now), streak, r, next)
    requires after == Promoted(Unexpired(queued, now), now) - (if r.Some? then {r.value.hash} else {})
    requires forall h :: h in queued ==> PeerList(queued[h].peers)
    ensures Takes(queued, after, r)
  {
    hide PeerList;
    PopKeys(queued, now, streak, r, next);
    hide Popped;
    if r.None? { assert Promoted(Unexpired(queued, now), now) - {} == Promoted(Unexpired(queued, now), now); }
  }

  lemma DispatchNone(queued: map<Hash, Entry>, after: map<Hash, Entry>, inFlight: map<Hash, Flight>,
                     tasks: map<nat, Hash>, limit: nat, records: map<Hash, State>, policy: Policy, c: Counts,
                     hasLookup: bool)
    requires Sound(queued.Keys, inFlight, tasks, limit, records, policy, c) && Takes(queued, after, None)
    ensures Sound(after.Keys, inFlight, tasks, limit, records, policy, c)
    ensures DispatchStep(queued, after, inFlight, inFlight, false, hasLookup)
  {
    hide Idle;
    SoundFewer(queued.Keys, after.Keys, inFlight, tasks, limit, records, policy, c);
  }

  lemma SoundFewer(q: set<Hash>, after: set<Hash>, inFlight: map<Hash, Flight>, tasks: map<nat, Hash>, limit: nat,
                   records: map<Hash, State>, policy: Policy, c: Counts)
    requires Sound(q, inFlight, tasks, limit, records, policy, c) && after <= q
    ensures Sound(after, inFlight, tasks, limit, records, policy, c)
  {
    hide FlightOk, Open;
  }

  lemma FewerLeft(queued: map<Hash, Entry>, after: map<Hash, Entry>, h: Hash)
    requires after.Keys <= queued.Keys && h in queued && h !in after
    ensures |after| < |queued|
  {
    SubsetSize(after.Keys, queued.Keys - {h});
  }

  lemma DispatchDropped(queued: map<Hash, Entry>, after: map<Hash, Entry>, inFlight: map<Hash, Flight>,
                        tasks: map<nat, Hash>, limit: nat, records: map<Hash, State>, policy: Policy, c: Counts,
                        hasLookup: bool, e: Entry, now: Instant)
    requires Sound(queued.Keys, inFlight, tasks, limit, records, policy, c) && Takes(queued, after, Some(e))
    ensures Sound(after.Keys, inFlight, tasks, limit, records, policy, c)
    ensures DispatchStep(queued, after, inFlight, inFlight, true, hasLookup)
  {
    hide Sound, PeerList;
    SoundFewer(queued.Keys, after.Keys, inFlight, tasks, limit, records, policy, c);
    FewerLeft(queued, after, e.hash);
  }

  lemma DispatchLaunched(queued: map<Hash, Entry>, after: map<Hash, Entry>, inFlight: map<Hash, Flight>,
                         tasks: map<nat, Hash>, limit: nat, records: map<Hash, State>, policy: Policy, c: Counts,
                         hasLookup: bool, e: Entry, now: Instant)
    requires Sound(queued.Keys, inFlight, tasks, limit, records, policy, c) && Takes(queued, after, Some(e))
    requires |tasks| < limit
    requires Take(StartPeers(e, now), MAX_CANDIDATES) != [] || hasLookup
    ensures var f := Launched(e, Take(StartPeers(e, now), MAX_CANDIDATES));
      && Sound(after.Keys, inFlight[e.hash := f], tasks[c.next := e.hash], limit, records, policy,
               Counts(c.started + 1, c.ended, c.next + 1))
      && DispatchStep(queued, after, inFlight, inFlight[e.hash := f], true, hasLookup)
  {
    hide PeerList, StartPeers, FlightOk, Balanced, Disciplined, DispatchStep, Addrs;
    var f := Launched(e, Take(StartPeers(e, now), MAX_CANDIDATES));
    LaunchedOk(e, now);
    NotFlying(queued.Keys, inFlight, tasks, limit, e.hash);
    LaunchBalanced(queued.Keys, after.Keys, inFlight, tasks, limit, c.next, e.hash, f);
    FewerBusy(records, queued.Keys + inFlight.Keys, after.Keys + inFlight[e.hash := f].Keys, policy);
    StepLaunched(queued, after, inFlight, e, f, hasLookup);
  }

  lemma StepLaunched(queued: map<Hash, Entry>, after: map<Hash, Entry>, inFlight: map<Hash, Flight>, e: Entry,
                     f: Flight, hasLookup: bool)
    requires after.Keys <= queued.Keys && e.hash in queued && e.hash !in after && e.hash !in inFlight
    requires (f.entry.peers != [] || hasLookup) && f.scheduledPeers == Addrs(f.entry.peers)
    ensures DispatchStep(queued, after, inFlight, inFlight[e.hash := f], true, hasLookup)
  {
    hide Addrs;
    FewerLeft(queued, after, e.hash);
    assert Flies(queued, after, inFlight, inFlight[e.hash := f], e.hash, f, hasLookup);
  }

  lemma NotFlying(q: set<Hash>, inFlight: map<Hash, Flight>, tasks: map<nat, Hash>, limit: nat, h: Hash)
    requires Balanced(q, inFlight, tasks, limit) && h in q
    ensures h !in inFlight
  {
  }

  // ---------- ending jobs ----------

  function PeerAddrs(peers: seq<Peer>): seq<Addr> {
    seq(|peers|, i requires 0 <= i < |peers| => peers[i].addr)
  }

  function NodeAddrs(nodes: seq<Node>): seq<Addr> {
    seq(|nodes|, i requires 0 <= i < |nodes| => nodes[i].addr)
  }

  /** What noting a finished job leaves on record. */
  ghost predicate Noting(records: map<Hash, State>, after: map<Hash, State>, entry: Entry, failed: bool, delay: nat,
                         now: Instant, policy: Policy, record: Option<Record>) {
    var live, h := Surviving(records, now), entry.hash;
    if h !in live && |live| >= policy.historyCapacity then record == None && after == live
    else
      var n := NoteState(records, h, now, failed, delay, policy);
      && record == Some(n.record)
      && after == live[h := n.(peers := NotedAll(n.peers, PeerAddrs(entry.peers), MAX_CANDIDATES),
                               sources := NotedAll(n.sources, NodeAddrs(entry.sourceNodes), MAX_SOURCE_NODES))]
  }

  method NoteEntry(history: RetryHistory, entry: Entry, now: Instant, failed: bool, delay: nat)
    returns (r: Option<Record>)
    requires history.Valid()
    modifies history
    ensures history.Valid()
    ensures Noting(old(history.entries), history.entries, entry, failed, delay, now, history.policy, r)
  {
    hide RetryHistory.Valid, Surviving, Recorded, Started, NotedAll;
    r := history.Note(entry.hash, now, failed, delay);
    history.Remember(entry.hash, PeerAddrs(entry.peers), NodeAddrs(entry.sourceNodes));
  }

  /** What weighing a finished job does: nothing when retries are off or a retry has outlived its record; else
      the job is noted, and its hash is deferred while an attempt is left and is due before the record lapses. */
  ghost predicate RetryStep(records: map<Hash, State>, after: map<Hash, State>, queued: map<Hash, Entry>,
                            queuedAfter: map<Hash, Entry>, entry: Entry, failed: bool, delay: nat, now: Instant,
                            policy: Policy, capacity: nat) {
    if policy.maxAttempts == 0 || (entry.isRetry && entry.expiresAt <= now) then
      after == records && queuedAfter == queued
    else exists record ::
      && Noting(records, after, entry, failed, delay, now, policy, record)
      && if record.None? || record.value.failures >= AttemptLimit(record.value, policy)
            || record.value.nextDue >= record.value.expiresAt then queuedAfter == queued
         else exists ok :: DeferStep(queued, queuedAfter, entry, record.value.nextDue, record.value.expiresAt,
             capacity, ok)
  }

  ghost predicate FinishStep(records: map<Hash, State>, after: map<Hash, State>, queued: map<Hash, Entry>,
                             queuedAfter: map<Hash, Entry>, entry: Entry, outcome: Outcome, now: Instant,
                             policy: Policy, capacity: nat) {
    match outcome
    case GateRejected => after == records - {entry.hash} && queuedAfter == queued
    case Deferred(delay) => RetryStep(records, after, queued, queuedAfter, entry, false, delay, now, policy, capacity)
    case Completed(status) =>
      if status == Accepted then after == records - {entry.hash} && queuedAfter == queued
      else RetryStep(records, after, queued, queuedAfter, entry, true, 0, now, policy, capacity)
  }

  lemma RetryNone(records: map<Hash, State>, queued: map<Hash, Entry>, entry: Entry, failed: bool, delay: nat,
                  now: Instant, policy: Policy, capacity: nat)
    requires policy.maxAttempts == 0 || (entry.isRetry && entry.expiresAt <= now)
    ensures RetryStep(records, records, queued, queued, entry, failed, delay, now, policy, capacity)
    ensures RecordsMove(records, records, now, policy)
  {
  }

  /** Noting a job of a hash that had an attempt left keeps the records within their limits. */
  lemma NotingDisciplined(records: map<Hash, State>, after: map<Hash, State>, busy: set<Hash>, entry: Entry,
                          failed: bool, delay: nat, now: Instant, policy: Policy, record: Option<Record>)
    requires Disciplined(records, busy, policy) && policy.maxAttempts > 0
    requires Open(records, entry.hash, policy) && entry.hash !in busy
    requires Noting(records, after, entry, failed, delay, now, policy, record)
    ensures Disciplined(after, busy, policy) && RecordsMove(records, after, now, policy)
    ensures record.Some? && record.value.failures < AttemptLimit(record.value, policy) ==>
              Disciplined(after, busy + {entry.hash}, policy)
  {
    hide Disciplined, RecordsMove, NoteState, Surviving, Open;
    if record.None? {
      SurvivorsDisciplined(records, busy, now, policy);
    } else {
      NoteDisciplined(records, busy, entry.hash, now, failed, delay, after[entry.hash], policy);
    }
  }

  lemma RetryRefused(records: map<Hash, State>, after: map<Hash, State>, queued: map<Hash, Entry>,
                     inFlight: map<Hash, Flight>, tasks: map<nat, Hash>, limit: nat, policy: Policy, c: Counts,
                     entry: Entry, failed: bool, delay: nat, now: Instant, capacity: nat, record: Option<Record>)
    requires Sound(queued.Keys, inFlight, tasks, limit, records, policy, c) && entry.hash !in inFlight
    requires Open(records, entry.hash, policy) && entry.hash !in queued
    requires policy.maxAttempts > 0 && !(entry.isRetry && entry.expiresAt <= now)
    requires Noting(records, after, entry, failed, delay, now, policy, record)
    requires record.None? || record.value.failures >= AttemptLimit(record.value, policy)
             || record.value.nextDue >= record.value.expiresAt
    ensures Sound(queued.Keys, inFlight, tasks, limit, after, policy, c) && RecordsMove(records, after, now, policy)
    ensures RetryStep(records, after, queued, queued, entry, failed, delay, now, policy, capacity)
  {
    hide Balanced, Disciplined, Noting, Open, DeferStep, RecordsMove;
    NotingDisciplined(records, after, queued.Keys + inFlight.Keys, entry, failed, delay, now, policy, record);
  }

  lemma RetryTaken(records: map<Hash, State>, after: map<Hash, State>, queued: map<Hash, Entry>,
                   queuedAfter: map<Hash, Entry>, inFlight: map<Hash, Flight>, tasks: map<nat, Hash>, limit: nat,
                   policy: Policy, c: Counts, entry: Entry, failed: bool, delay: nat, now: Instant, capacity: nat,
                   record: Option<Record>, ok: bool)
    requires Sound(queued.Keys, inFlight, tasks, limit, records, policy, c) && entry.hash !in inFlight
    requires Open(records, entry.hash, policy) && entry.hash !in queued
    requires policy.maxAttempts > 0 && !(entry.isRetry && entry.expiresAt <= now)
    requires Noting(records, after, entry, failed, delay, now, policy, record) && record.Some?
    requires record.value.failures < AttemptLimit(record.value, policy) && record.value.nextDue < record.value.expiresAt
    requires DeferStep(queued, queuedAfter, entry, record.value.nextDue, record.value.expiresAt, capacity, ok)
    ensures Sound(queuedAfter.Keys, inFlight, tasks, limit, after, policy, c)
    ensures RecordsMove(records, after, now, policy)
    ensures RetryStep(records, after, queued, queuedAfter, entry, failed, delay, now, policy, capacity)
  {
    hide Balanced, Disciplined, Noting, Open, DeferStep, RecordsMove;
    NotingDisciplined(records, after, queued.Keys + inFlight.Keys, entry, failed, delay, now, policy, record);
    DeferKeys(queued, queuedAfter, entry, record.value.nextDue, record.value.expiresAt, capacity, ok);
    SoundRequeue(queued.Keys, queuedAfter.Keys, inFlight, tasks, limit, after, policy, c, entry.hash);
  }

  lemma BusyOpen(records: map<Hash, State>, busy: set<Hash>, h: Hash, policy: Policy)
    requires Disciplined(records, busy, policy) && h in busy
    ensures Open(records, h, policy)
  {
    hide Open, AttemptLimit;
  }

  lemma SoundLand(q: set<Hash>, inFlight: map<Hash, Flight>, tasks: map<nat, Hash>, limit: nat,
                  records: map<Hash, State>, policy: Policy, c: Counts, id: nat)
    requires Sound(q, inFlight, tasks, limit, records, policy, c) && id in tasks
    ensures tasks[id] in inFlight && tasks[id] !in q && Open(records, tasks[id], policy)
    ensures inFlight[tasks[id]].entry.hash == tasks[id] && PeerList(inFlight[tasks[id]].entry.peers)
    ensures Sound(q, inFlight - {tasks[id]}, tasks - {id}, limit, records, policy, c.(ended := c.ended + 1))
  {
    LandBalanced(q, inFlight, tasks, limit, id);
    hide Balanced, PeerList, Open, Disciplined;
    BusyOpen(records, q + inFlight.Keys, tasks[id], policy);
    FewerBusy(records, q + inFlight.Keys, q + (inFlight - {tasks[id]}).Keys, policy);
  }

  lemma SoundForget(q: set<Hash>, inFlight: map<Hash, Flight>, tasks: map<nat, Hash>, limit: nat,
                    records: map<Hash, State>, policy: Policy, c: Counts, h: Hash)
    requires Sound(q, inFlight, tasks, limit, records, policy, c)
    ensures Sound(q, inFlight, tasks, limit, records - {h}, policy, c)
    ensures forall now :: RecordsMove(records, records - {h}, now, policy)
  {
    hide Balanced, Disciplined, RecordsMove;
    DropDisciplined(records, q + inFlight.Keys, h, policy);
  }
}
