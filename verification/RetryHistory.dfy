/** The memory of failed metadata jobs: how often a hash failed, when it may be tried again, and when the
    memory itself lapses. */
module RetryHistories {
  import opened Common
  import opened Nodes
  import opened PendingQueues

  const MAX_RETRY_LIFETIME: nat := 7 * 24 * 60 * 60 * SECONDS
  const SHORTEST_DELAY: nat := 100 * MILLIS
  const U64_MAX: nat := 0xFFFF_FFFF_FFFF_FFFF
  const MAX_EXTRA_ATTEMPTS: nat := 2

  datatype Policy = Policy(maxAttempts: nat, initialDelaySecs: nat, maxDelaySecs: nat, historyCapacity: nat,
                           historyTtlSecs: nat)

  datatype Record = Record(failures: nat, nextDue: Instant, expiresAt: Instant, extraAttempts: nat)

  datatype State = State(record: Record, peers: seq<Addr>, sources: seq<Addr>)

  function Least(x: nat, y: nat): nat {
    if x < y then x else y
  }

  function RetryDeadline(now: Instant, delay: nat): Instant {
    now + Least(delay, MAX_RETRY_LIFETIME)
  }

  function AttemptLimit(record: Record, policy: Policy): nat {
    policy.maxAttempts + record.extraAttempts
  }

  // ---------- exponential backoff ----------

  /** The delay after `failures` failures: doubling, up to the policy's limit. */
  function FailureDelay(failures: nat, policy: Policy): nat {
    var shift := Least(if failures == 0 then 0 else failures - 1, 31);
    Least(Least(policy.initialDelaySecs * Pow2(shift), U64_MAX), policy.maxDelaySecs) * SECONDS
  }

  function DueAfter(now: Instant, delay: nat): Instant {
    RetryDeadline(now, Latest(delay, SHORTEST_DELAY))
  }

  lemma {:induction false} PowersGrow(m: nat, n: nat)
    requires m <= n
    ensures Pow2(m) <= Pow2(n)
  {
    if m < n { PowersGrow(m, n - 1); }
  }

  lemma Scales(a: nat, x: nat, y: nat)
    requires x <= y
    ensures a * x <= a * y
  {
  }

  /** The delay starts at the policy's first one and doubles with every further failure, up to the policy's longest. */
  lemma DelayDoubles(failures: nat, policy: Policy)
    requires policy.maxDelaySecs <= U64_MAX
    ensures FailureDelay(0, policy) == FailureDelay(1, policy) ==
      Least(policy.initialDelaySecs, policy.maxDelaySecs) * SECONDS
    ensures 1 <= failures < 32 ==>
      FailureDelay(failures + 1, policy) == Least(2 * FailureDelay(failures, policy), policy.maxDelaySecs * SECONDS)
    ensures failures >= 32 ==> FailureDelay(failures, policy) == FailureDelay(32, policy)
  {
    if 1 <= failures < 32 {
      var base := policy.initialDelaySecs * Pow2(failures - 1);
      assert policy.initialDelaySecs * Pow2(failures) == 2 * base;
      Seconds(base, policy.maxDelaySecs);
    }
  }

  lemma Seconds(base: nat, max: nat)
    ensures Least(2 * base, max) * SECONDS == Least(2 * (Least(base, max) * SECONDS), max * SECONDS)
  {
  }

  /** More failures never shorten the wait, and no wait is shorter than a tenth of a second or longer than a
      week. */
  lemma BackoffGrows(now: Instant, f: nat, g: nat, policy: Policy)
    requires f <= g
    ensures now + SHORTEST_DELAY <= DueAfter(now, FailureDelay(f, policy)) <= DueAfter(now, FailureDelay(g, policy))
    ensures DueAfter(now, FailureDelay(g, policy)) <= now + MAX_RETRY_LIFETIME
  {
    var x := Least(if f == 0 then 0 else f - 1, 31);
    var y := Least(if g == 0 then 0 else g - 1, 31);
    PowersGrow(x, y);
    Scales(policy.initialDelaySecs, Pow2(x), Pow2(y));
  }

  // ---------- evidence ----------

  predicate Novel(seen: seq<Addr>, candidate: Option<Addr>) {
    candidate.Some? && candidate.value !in seen
  }

  function Noted(seen: seq<Addr>, candidate: Option<Addr>, capacity: nat): seq<Addr> {
    if Novel(seen, candidate) && |seen| < capacity then seen + [candidate.value] else seen
  }

  function Observe(s: State, peer: Option<Addr>, source: Option<Addr>): State {
    s.(peers := Noted(s.peers, peer, MAX_CANDIDATES), sources := Noted(s.sources, source, MAX_SOURCE_NODES))
  }

  // ---------- records ----------

  /** A record's limit has grown by two at most, and its evidence is bounded and free of repeats. */
  ghost predicate StateOk(s: State) {
    && s.record.extraAttempts <= MAX_EXTRA_ATTEMPTS
    && |s.peers| <= MAX_CANDIDATES && |s.sources| <= MAX_SOURCE_NODES && NoRepeats(s.peers)
    && NoRepeats(s.sources)
  }

  ghost predicate AllOk(entries: map<Hash, State>, policy: Policy) {
    && (forall h :: h in entries ==> StateOk(entries[h]))
    && |entries| <= policy.historyCapacity
  }

  /** The expiry index holds one key for each record. */
  ghost predicate Scheduled(expiry: set<(Instant, Hash)>, entries: map<Hash, State>) {
    && (forall k :: k in expiry ==> k.1 in entries && entries[k.1].record.expiresAt == k.0)
    && (forall h :: h in entries ==> (entries[h].record.expiresAt, h) in expiry)
  }

  /** What is left once the records whose time has come are forgotten. */
  ghost function Surviving(entries: map<Hash, State>, now: Instant): map<Hash, State> {
    map h | h in entries && entries[h].record.expiresAt > now :: entries[h]
  }

  /** Another attempt is open to a hash: it has no record, or its record is below its limit. */
  predicate Open(entries: map<Hash, State>, h: Hash, policy: Policy) {
    h in entries ==> entries[h].record.failures < AttemptLimit(entries[h].record, policy)
  }

  function Started(now: Instant, policy: Policy): State {
    State(Record(0, now, RetryDeadline(now, policy.historyTtlSecs * SECONDS), 0), [], [])
  }

  function Recorded(s: State, now: Instant, failed: bool, delay: nat, policy: Policy): State {
    var failures := if failed then s.record.failures + 1 else s.record.failures;
    s.(record := s.record.(failures := failures,
                           nextDue := DueAfter(now, if failed then FailureDelay(failures, policy) else delay)))
  }

  /** New evidence about an exhausted hash earns it one more attempt, twice at most. */
  function Reconsidered(s: State, event: Event, now: Instant, policy: Policy): State {
    var source := if event.node.Some? then Some(event.node.value.addr) else None;
    var seen := Observe(s, event.peer, source);
    if && s.record.failures >= AttemptLimit(s.record, policy)
       && (Novel(s.peers, event.peer) || Novel(s.sources, source))
       && s.record.extraAttempts < MAX_EXTRA_ATTEMPTS && policy.maxAttempts > 0
    then seen.(record := s.record.(extraAttempts := s.record.extraAttempts + 1,
                                   nextDue := DueAfter(now, policy.initialDelaySecs * SECONDS)))
    else seen
  }

  /** The addresses kept after a list of them is looked at in order. */
  function NotedAll(seen: seq<Addr>, addrs: seq<Addr>, capacity: nat): seq<Addr> {
    if addrs == [] then seen
    else Noted(NotedAll(seen, addrs[..|addrs| - 1], capacity), Some(addrs[|addrs| - 1]), capacity)
  }

  /** Looking at addresses keeps the ones already there, adds each at most once, and leaves one out only when
      the list is full. */
  lemma {:induction false} NotedAllKeeps(seen: seq<Addr>, addrs: seq<Addr>, capacity: nat)
    requires |seen| <= capacity && NoRepeats(seen)
    ensures var r := NotedAll(seen, addrs, capacity);
      && seen <= r && |r| <= capacity && NoRepeats(r)
      && (forall a :: a in r ==> a in seen || a in addrs)
      && (|r| < capacity ==> forall a :: a in addrs ==> a in r)
  {
    if addrs == [] {
    } else {
      NotedAllKeeps(seen, addrs[..|addrs| - 1], capacity);
      assert addrs == addrs[..|addrs| - 1] + [addrs[|addrs| - 1]];
    }
  }

  lemma ObserveOk(s: State, peer: Option<Addr>, source: Option<Addr>)
    requires StateOk(s)
    ensures StateOk(Observe(s, peer, source))
  {
  }

  lemma ReconsideredOk(s: State, event: Event, now: Instant, policy: Policy)
    requires StateOk(s)
    ensures StateOk(Reconsidered(s, event, now, policy))
    ensures Reconsidered(s, event, now, policy).record.expiresAt == s.record.expiresAt
    ensures Reconsidered(s, event, now, policy).record.failures == s.record.failures
  {
    ObserveOk(s, event.peer, if event.node.Some? then Some(event.node.value.addr) else None);
    hide Observe, DueAfter;
    assert Observe(s, event.peer, if event.node.Some? then Some(event.node.value.addr) else None).record == s.record;
  }

  lemma RecordedOk(s: State, now: Instant, failed: bool, delay: nat, policy: Policy)
    requires StateOk(s)
    ensures StateOk(Recorded(s, now, failed, delay, policy))
    ensures Recorded(s, now, failed, delay, policy).record.expiresAt == s.record.expiresAt
  {
  }

  lemma AllOkReplace(entries: map<Hash, State>, h: Hash, s: State, policy: Policy)
    requires AllOk(entries, policy) && StateOk(s)
    requires h in entries || |entries| < policy.historyCapacity
    ensures AllOk(entries[h := s], policy)
  {
    hide StateOk;
    assert entries[h := s].Keys == entries.Keys + {h};
  }

  lemma AllOkDrop(entries: map<Hash, State>, h: Hash, policy: Policy)
    requires AllOk(entries, policy)
    ensures AllOk(entries - {h}, policy)
  {
    hide StateOk;
    SubsetSize((entries - {h}).Keys, entries.Keys);
  }

  // ---------- the history ----------

  predicate IsEarliest(s: set<(Instant, Hash)>, k: (Instant, Hash)) {
    k in s && forall j :: j in s ==> k.0 <= j.0
  }

  lemma {:induction false} EarliestExists(s: set<(Instant, Hash)>) returns (k: (Instant, Hash))
    requires s != {}
    ensures IsEarliest(s, k)
    decreases |s|
  {
    var x :| x in s;
    if j :| j in s && j.0 < x.0 {
      k := EarliestExists(s - {x});
      assert k.0 <= j.0;
    } else {
      k := x;
    }
  }

  method Earliest(s: set<(Instant, Hash)>) returns (k: (Instant, Hash))
    requires s != {}
    ensures IsEarliest(s, k)
  {
    ghost var least := EarliestExists(s);
    k :| k in s && forall j :: j in s ==> k.0 <= j.0;
  }

  class RetryHistory {
    const policy: Policy
    var entries: map<Hash, State>
    var expiry: set<(Instant, Hash)>

    ghost predicate Valid()
      reads this
    {
      Scheduled(expiry, entries) && AllOk(entries, policy)
    }

    constructor (p: Policy)
      ensures Valid() && entries == map[] && policy == p
    {
      policy := p;
      entries, expiry := map[], {};
    }

    method Expire(now: Instant)
      requires Valid()
      modifies this
      ensures Valid() && entries == Surviving(old(entries), now)
    {
      hide AllOk, Surviving, Scheduled, IsEarliest;
      while expiry != {}
        invariant Valid() && Surviving(entries, now) == Surviving(old(entries), now)
        decreases |expiry|
      {
        var k := Earliest(expiry);
        if k.0 > now {
          break;
        }
        KeyDropped(expiry, entries, k, now);
        AllOkDrop(entries, k.1, policy);
        expiry := expiry - {k};
        entries := entries - {k.1};
      }
      AllSurvive(expiry, entries, now);
    }

    method Remove(hash: Hash)
      requires Valid()
      modifies this
      ensures Valid() && entries == old(entries) - {hash}
    {
      hide AllOk, Scheduled;
      if hash in entries {
        ScheduledDrop(expiry, entries, hash);
        AllOkDrop(entries, hash, policy);
        expiry := expiry - {(entries[hash].record.expiresAt, hash)};
      }
      assert hash !in entries ==> entries - {hash} == entries;
      entries := entries - {hash};
    }

    /** Note an attempt or a deferral: a new record when there is none and there is room, its expiry fixed then;
        one more failure when it failed; and the next time the hash is due. */
    method Note(hash: Hash, now: Instant, failed: bool, delay: nat) returns (r: Option<Record>)
      requires Valid()
      modifies this
      ensures Valid()
      ensures var live := Surviving(old(entries), now);
        if hash !in live && |live| >= policy.historyCapacity then r == None && entries == live
        else
          var s := Recorded(if hash in live then live[hash] else Started(now, policy), now, failed, delay, policy);
          r == Some(s.record) && entries == live[hash := s]
    {
      hide AllOk, Scheduled, Recorded, Started;
      Expire(now);
      if hash !in entries {
        if |entries| >= policy.historyCapacity {
          return None;
        }
        StartedOk(expiry, entries, hash, now, policy);
        expiry := expiry + {(Started(now, policy).record.expiresAt, hash)};
        entries := entries[hash := Started(now, policy)];
      }
      NoteOk(expiry, entries, hash, now, failed, delay, policy);
      entries := entries[hash := Recorded(entries[hash], now, failed, delay, policy)];
      return Some(entries[hash].record);
    }

    /** Take notice of an event for a hash with a record. */
    method ObserveEvent(event: Event, now: Instant) returns (r: Option<Record>)
      requires Valid()
      modifies this
      ensures Valid()
      ensures var live := Surviving(old(entries), now);
        if event.hash !in live then r == None && entries == live
        else
          var s := Reconsidered(live[event.hash], event, now, policy);
          r == Some(s.record) && entries == live[event.hash := s]
    {
      hide AllOk, Scheduled, Reconsidered;
      Expire(now);
      if event.hash !in entries {
        return None;
      }
      ObserveEventOk(expiry, entries, event, now, policy);
      entries := entries[event.hash := Reconsidered(entries[event.hash], event, now, policy)];
      return Some(entries[event.hash].record);
    }

    /** Remember which peers and nodes a finished job knew of. */
    method Remember(hash: Hash, peers: seq<Addr>, nodes: seq<Addr>)
      requires Valid()
      modifies this
      ensures Valid()
      ensures if hash !in old(entries) then entries == old(entries)
              else
                var s := old(entries)[hash];
                entries == old(entries)[hash := s.(peers := NotedAll(s.peers, peers, MAX_CANDIDATES),
                                                   sources := NotedAll(s.sources, nodes, MAX_SOURCE_NODES))]
    {
      hide AllOk, Scheduled;
      if hash !in entries {
        return;
      }
      RememberOk(expiry, entries, hash, peers, nodes, policy);
      var s := entries[hash];
      ghost var s0 := s;
      for i := 0 to |peers|
        invariant s == s0.(peers := NotedAll(s0.peers, peers[..i], MAX_CANDIDATES))
      {
        assert peers[..i + 1][..i] == peers[..i];
        s := Observe(s, Some(peers[i]), None);
      }
      assert peers[..|peers|] == peers;
      ghost var s1 := s;
      for i := 0 to |nodes|
        invariant s == s1.(sources := NotedAll(s1.sources, nodes[..i], MAX_SOURCE_NODES))
      {
        assert nodes[..i + 1][..i] == nodes[..i];
        s := Observe(s, None, Some(nodes[i]));
      }
      assert nodes[..|nodes|] == nodes;
      entries := entries[hash := s];
    }
  }

  lemma KeyDropped(expiry: set<(Instant, Hash)>, entries: map<Hash, State>, k: (Instant, Hash), now: Instant)
    requires Scheduled(expiry, entries) && IsEarliest(expiry, k) && k.0 <= now
    ensures Scheduled(expiry - {k}, entries - {k.1})
    ensures Surviving(entries - {k.1}, now) == Surviving(entries, now) && |expiry - {k}| < |expiry|
  {
  }

  lemma AllSurvive(expiry: set<(Instant, Hash)>, entries: map<Hash, State>, now: Instant)
    requires Scheduled(expiry, entries)
    requires expiry == {} || exists k: (Instant, Hash) :: IsEarliest(expiry, k) && k.0 > now
    ensures Surviving(entries, now) == entries
  {
  }

  lemma ScheduledDrop(expiry: set<(Instant, Hash)>, entries: map<Hash, State>, h: Hash)
    requires Scheduled(expiry, entries) && h in entries
    ensures Scheduled(expiry - {(entries[h].record.expiresAt, h)}, entries - {h})
  {
  }

  lemma ScheduledReplace(expiry: set<(Instant, Hash)>, entries: map<Hash, State>, h: Hash, s: State)
    requires Scheduled(expiry, entries) && h in entries && s.record.expiresAt == entries[h].record.expiresAt
    ensures Scheduled(expiry, entries[h := s])
  {
  }

  lemma StartedOk(expiry: set<(Instant, Hash)>, entries: map<Hash, State>, h: Hash, now: Instant, policy: Policy)
    requires Scheduled(expiry, entries) && AllOk(entries, policy) && h !in entries && |entries| < policy.historyCapacity
    ensures var s := Started(now, policy);
      Scheduled(expiry + {(s.record.expiresAt, h)}, entries[h := s]) && AllOk(entries[h := s], policy)
  {
    AllOkReplace(entries, h, Started(now, policy), policy);
    hide AllOk;
  }

  lemma NoteOk(expiry: set<(Instant, Hash)>, entries: map<Hash, State>, h: Hash, now: Instant, failed: bool, delay: nat,
               policy: Policy)
    requires Scheduled(expiry, entries) && AllOk(entries, policy) && h in entries
    ensures var s := Recorded(entries[h], now, failed, delay, policy);
      Scheduled(expiry, entries[h := s]) && AllOk(entries[h := s], policy)
  {
    hide Scheduled, StateOk, Recorded;
    RecordedOk(entries[h], now, failed, delay, policy);
    ScheduledReplace(expiry, entries, h, Recorded(entries[h], now, failed, delay, policy));
    AllOkReplace(entries, h, Recorded(entries[h], now, failed, delay, policy), policy);
  }

  lemma ObserveEventOk(expiry: set<(Instant, Hash)>, entries: map<Hash, State>, event: Event, now: Instant,
                       policy: Policy)
    requires Scheduled(expiry, entries) && AllOk(entries, policy) && event.hash in entries
    ensures var s := Reconsidered(entries[event.hash], event, now, policy);
      Scheduled(expiry, entries[event.hash := s]) && AllOk(entries[event.hash := s], policy)
  {
    hide Scheduled, StateOk, Reconsidered;
    var s := Reconsidered(entries[event.hash], event, now, policy);
    ReconsideredOk(entries[event.hash], event, now, policy);
    ScheduledReplace(expiry, entries, event.hash, s);
    AllOkReplace(entries, event.hash, s, policy);
  }

  lemma RememberOk(expiry: set<(Instant, Hash)>, entries: map<Hash, State>, h: Hash, peers: seq<Addr>, nodes: seq<Addr>,
                   policy: Policy)
    requires Scheduled(expiry, entries) && AllOk(entries, policy) && h in entries
    ensures var s := entries[h].(peers := NotedAll(entries[h].peers, peers, MAX_CANDIDATES),
                                 sources := NotedAll(entries[h].sources, nodes, MAX_SOURCE_NODES));
      Scheduled(expiry, entries[h := s]) && AllOk(entries[h := s], policy)
  {
    hide Scheduled, NotedAll;
    var s := entries[h].(peers := NotedAll(entries[h].peers, peers, MAX_CANDIDATES),
                         sources := NotedAll(entries[h].sources, nodes, MAX_SOURCE_NODES));
    NotedAllKeeps(entries[h].peers, peers, MAX_CANDIDATES);
    NotedAllKeeps(entries[h].sources, nodes, MAX_SOURCE_NODES);
    assert StateOk(s);
    ScheduledReplace(expiry, entries, h, s);
    AllOkReplace(entries, h, s, policy);
  }
}
