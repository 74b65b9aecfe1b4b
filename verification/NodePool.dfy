/** The FIFO pool of nodes waiting to be probed, and the memory of recent probes behind it. */
module NodePools {
  import opened Common
  import opened Nodes
  import opened Budgets
  import opened RecentProbing

  datatype Admission = Admitted | Replaced | Duplicate | RateLimited | Invalid

  datatype Queued = Queued(node: Node, queuedAt: Instant)

  ghost function Addrs(queue: seq<Queued>): set<Addr> {
    set i | 0 <= i < |queue| :: queue[i].node.addr
  }

  ghost predicate Distinct(queue: seq<Queued>) {
    forall i, j :: 0 <= i < j < |queue| ==> queue[i].node.addr != queue[j].node.addr
  }

  lemma PopFront(queue: seq<Queued>)
    requires queue != [] && Distinct(queue)
    ensures Distinct(queue[1..]) && Addrs(queue[1..]) == Addrs(queue) - {queue[0].node.addr}
  {
    forall a | a in Addrs(queue) - {queue[0].node.addr} ensures a in Addrs(queue[1..]) {
      var i :| 0 <= i < |queue| && queue[i].node.addr == a;
      assert queue[1..][i - 1].node.addr == a;
    }
    forall a | a in Addrs(queue[1..]) ensures a in Addrs(queue) - {queue[0].node.addr} {
      var i :| 0 <= i < |queue| - 1 && queue[1..][i].node.addr == a;
      assert queue[i + 1].node.addr == a;
    }
  }

  lemma PushBack(queue: seq<Queued>, entry: Queued)
    requires Distinct(queue) && entry.node.addr !in Addrs(queue)
    ensures Distinct(queue + [entry]) && Addrs(queue + [entry]) == Addrs(queue) + {entry.node.addr}
  {
    var back := queue + [entry];
    assert forall i :: 0 <= i < |queue| ==> queue[i].node.addr in Addrs(queue) && back[i] == queue[i];
    assert back[|queue|].node.addr == entry.node.addr;
    forall a | a in Addrs(queue) ensures a in Addrs(back) {
      var i :| 0 <= i < |queue| && queue[i].node.addr == a;
      assert back[i].node.addr == a;
    }
  }

  lemma PushFront(queue: seq<Queued>, entry: Queued)
    requires Distinct(queue) && entry.node.addr !in Addrs(queue)
    ensures Distinct([entry] + queue) && Addrs([entry] + queue) == Addrs(queue) + {entry.node.addr}
  {
    var front := [entry] + queue;
    assert forall i :: 0 <= i < |queue| ==> queue[i].node.addr in Addrs(queue) && front[i + 1] == queue[i];
    assert front[0].node.addr == entry.node.addr;
    forall a | a in Addrs(queue) ensures a in Addrs(front) {
      var i :| 0 <= i < |queue| && queue[i].node.addr == a;
      assert front[i + 1].node.addr == a;
    }
  }

  ghost predicate NoneAfter(m: map<Addr, Instant>, limit: Instant) {
    forall a :: a in m ==> m[a] <= limit
  }

  /** With the head of the heap not due, nothing stored has expired. */
  lemma NoneDue(entries: map<Addr, Probe>, expiry: seq<Check>, now: Instant)
    requires Linked(entries, expiry) && Heap(expiry) && KeysBelow(Checks(entries, expiry), Deadlines(entries))
    requires expiry != [] ==> expiry[0].at > now
    ensures Live(Deadlines(entries), now) == Deadlines(entries)
  {
    forall a | a in entries ensures entries[a].expiresAt > now {
      assert a in Checks(entries, expiry);
      HeadLeast(expiry, entries[a].heapIndex);
    }
  }

  lemma HeadDue(entries: map<Addr, Probe>, expiry: seq<Check>, now: Instant)
    requires Linked(entries, expiry) && expiry != [] && expiry[0].at <= now
    ensures Due(Checks(entries, expiry), now) != {}
  {
    assert expiry[0].addr in Due(Checks(entries, expiry), now);
  }

  lemma RetainedTrans(a: map<Addr, Instant>, b: map<Addr, Instant>, c: map<Addr, Instant>, now: Instant)
    requires Retained(a, b, now) && Retained(b, c, now)
    ensures Retained(a, c, now)
  {
  }

  lemma LiveSize(m: map<Addr, Instant>, now: Instant)
    ensures |Live(m, now)| <= |m|
    ensures |Live(m, now)| == |m| ==> Live(m, now) == m
  {
    var live := Live(m, now);
    assert live.Keys <= m.Keys;
    SubsetSize(live.Keys, m.Keys);
    assert live.Keys == m.Keys ==> live == m;
  }

  lemma DeadlinesFacts(entries: map<Addr, Probe>, limit: Instant)
    requires NoneAfter(Deadlines(entries), limit)
    ensures Deadlines(entries).Keys == entries.Keys && |Deadlines(entries)| == |entries|
    ensures forall a :: a in entries ==> entries[a].expiresAt <= limit
  {
    assert Deadlines(entries).Keys == entries.Keys;
    forall a | a in entries ensures entries[a].expiresAt <= limit {
      assert a in Deadlines(entries);
    }
  }

  lemma NoneAfterLater(m: map<Addr, Instant>, limit: Instant, later: Instant)
    requires NoneAfter(m, limit) && limit <= later
    ensures NoneAfter(m, later)
  {
  }

  /** What recording does to the live endpoints, given what it does to all of them. */
  lemma RecordLive(before: map<Addr, Instant>, after: map<Addr, Instant>, victim: Option<Addr>, addr: Addr,
                   deadline: Instant, now: Instant, capacity: nat)
    requires |before| <= capacity && now < deadline
    requires victim.Some? <==> addr !in before && |before| == capacity
    requires victim.Some? ==> victim.value in before
    requires |before| < capacity || addr in before || Live(before, now) == before
    requires after == Probed(before, victim, addr, deadline)
    ensures victim.Some? <==> addr !in Live(before, now) && |Live(before, now)| == capacity
    ensures victim.Some? ==> victim.value in Live(before, now)
    ensures Live(after, now) == Probed(Live(before, now), victim, addr, deadline)
    ensures NoneAfter(before, deadline) ==> NoneAfter(after, deadline)
  {
    LiveSize(before, now);
  }

  /** What admission decides on and changes: the queue, the replacement tokens, and whether the pool was ever full. */
  datatype Line = Line(queue: seq<Queued>, replacements: Bucket, warmed: bool)

  /** Offer a node to the line, given the endpoints that count as recently probed. */
  ghost function Offered(line: Line, recent: set<Addr>, node: Node, now: Instant, capacity: nat): (r: (Line, Admission))
    requires line.replacements.Valid()
    ensures r.0.replacements.Valid()
  {
    if !IsValidNodeAddr(node.addr) then (line, Invalid)
    else if node.addr in Addrs(line.queue) || node.addr in recent then (line, Duplicate)
    else Entered(line, node, now, capacity)
  }

  /** Append a node that is neither queued nor recent: for a replacement token once the pool was full, and in place of
      the oldest node while it is. */
  ghost function Entered(line: Line, node: Node, now: Instant, capacity: nat): (r: (Line, Admission))
    requires line.replacements.Valid()
    ensures r.0.replacements.Valid()
  {
    TakeExactLevel(line.replacements, 1, now);
    var (bucket, paid) := if line.warmed then TakeExact(line.replacements, 1, now) else (line.replacements, true);
    if !paid then (line.(replacements := bucket), RateLimited)
    else
      var full := |line.queue| >= capacity > 0;
      var queue := (if full then line.queue[1..] else line.queue) + [Queued(node, now)];
      (Line(queue, bucket, line.warmed || |queue| >= capacity), if full then Replaced else Admitted)
  }

  /** Offer several nodes, one after the other. */
  ghost function OfferedAll(line: Line, recent: set<Addr>, nodes: seq<Node>, now: Instant, capacity: nat): (r: Line)
    requires line.replacements.Valid()
    ensures r.replacements.Valid()
  {
    if nodes == [] then line
    else
      Offered(OfferedAll(line, recent, nodes[..|nodes| - 1], now, capacity), recent, nodes[|nodes| - 1], now,
          capacity).0
  }

  class NodePool {
    var queue: seq<Queued>
    var queued: set<Addr>
    const recent: RecentProbes
    var replacements: Bucket
    const recentTtl: nat
    const capacity: nat
    var warmed: bool
    /** The latest time any operation was told. */
    ghost var clock: Instant

    ghost predicate Valid()
      reads this, recent
    {
      && recent.Valid() && replacements.Valid() && recentTtl > 0 && capacity > 0
      && queued == Addrs(queue) && Distinct(queue) && |queue| <= capacity
      && (|queue| == capacity ==> warmed)
      && NoneAfter(Deadlines(recent.entries), clock + recentTtl)
    }

    /** The endpoints that count as recently probed at `now`. */
    ghost function RecentAt(now: Instant): map<Addr, Instant>
      reads recent
    {
      Live(Deadlines(recent.entries), now)
    }

    ghost function View(): Line
      reads this
    {
      Line(queue, replacements, warmed)
    }

    lemma TokensValid()
      requires Valid()
      ensures View().replacements.Valid()
    {
    }

    /** There is still a place at the head for an endpoint that was taken from it. */
    ghost predicate CanRestore(addr: Addr)
      reads this
    {
      |queue| < capacity && addr !in queued && (|queue| + 1 == capacity ==> warmed)
    }

    constructor (limit: nat, replacementsPerMinute: nat, ttl: nat, recentCapacity: nat, now: Instant)
      requires ttl > 0
      ensures Valid() && fresh(recent) && queue == [] && clock == now && recentTtl == ttl && !warmed
      ensures capacity == if limit == 0 then 1 else limit
      ensures replacements ==
        NewBucket(replacementsPerMinute, AtLeastOne(CeilDiv(replacementsPerMinute, 60)), true, true, now)
      ensures recent.entries == map[] && recent.capacity == if recentCapacity == 0 then 1 else recentCapacity
    {
      queue, queued, warmed, clock := [], {}, false, now;
      recent := new RecentProbes(recentCapacity);
      var burst := (replacementsPerMinute + 59) / 60;
      replacements := NewBucket(replacementsPerMinute, if burst == 0 then 1 else burst, true, true, now);
      recentTtl := ttl;
      capacity := if limit == 0 then 1 else limit;
    }

    /** How many recent endpoints are due for a check. */
    ghost function DueChecks(now: Instant): nat
      reads this, recent
      requires recent.Valid()
    {
      |Due(Checks(recent.entries, recent.expiry), now)|
    }

    method ExpireRecent(now: Instant)
      requires Valid() && clock <= now
      modifies recent
      ensures Valid() && RecentAt(now) == old(RecentAt(now))
      ensures Retained(old(Deadlines(recent.entries)), Deadlines(recent.entries), now)
      ensures Due(Checks(recent.entries, recent.expiry), now) <= old(Due(Checks(recent.entries, recent.expiry), now))
      ensures old(Due(Checks(recent.entries, recent.expiry), now)) != {} ==>
        |Due(Checks(recent.entries, recent.expiry), now)| < old(|Due(Checks(recent.entries, recent.expiry), now)|)
    {
      var due := recent.HasDue(now);
      if due {
        var removed := recent.Expire(now);
        RetainedLive(old(Deadlines(recent.entries)), Deadlines(recent.entries), now);
      }
    }

    /** At capacity, finish all due checks before a new endpoint may displace anything. */
    method PrepareRecentSlot(addr: Addr, now: Instant)
      requires Valid() && clock <= now
      modifies recent
      ensures Valid() && RecentAt(now) == old(RecentAt(now))
      ensures Retained(old(Deadlines(recent.entries)), Deadlines(recent.entries), now)
      ensures |recent.entries| < recent.capacity || addr in recent.entries || RecentAt(now) == Deadlines(recent.entries)
    {
      hide Linked, Heap, Checks, Live, Retained, Distinct, Addrs;
      ExpireRecent(now);
      var due := recent.HasDue(now);
      while |recent.entries| >= recent.capacity && addr !in recent.entries && due
        invariant Valid() && RecentAt(now) == old(RecentAt(now))
        invariant Retained(old(Deadlines(recent.entries)), Deadlines(recent.entries), now)
        invariant due <==> recent.expiry != [] && recent.expiry[0].at <= now
        decreases |Due(Checks(recent.entries, recent.expiry), now)|
      {
        ghost var was := Deadlines(recent.entries);
        HeadDue(recent.entries, recent.expiry, now);
        ExpireRecent(now);
        RetainedTrans(old(Deadlines(recent.entries)), was, Deadlines(recent.entries), now);
        due := recent.HasDue(now);
      }
      if !due { NoneDue(recent.entries, recent.expiry, now); }
    }

    /** A probe makes its endpoint recent for the TTL. Another recent endpoint is forgotten if and only
        if this one is new and the recent ones alone fill the capacity. */
    method RecordProbe(addr: Addr, now: Instant) returns (ghost victim: Option<Addr>)
      requires Valid() && clock <= now
      modifies this`clock, recent
      ensures Valid() && clock == now
      ensures victim.Some? <==> addr !in old(RecentAt(now)) && |old(RecentAt(now))| == recent.capacity
      ensures victim.Some? ==> victim.value in old(RecentAt(now))
      ensures RecentAt(now) == Probed(old(RecentAt(now)), victim, addr, now + recentTtl)
    {
      hide Linked, Heap, Checks, Live, Retained, Distinct, Addrs, Probed, Deadlines, KeysBelow, NoneAfter;
      PrepareRecentSlot(addr, now);
      ghost var before := Deadlines(recent.entries);
      SameSize(recent.entries, recent.expiry);
      DeadlinesFacts(recent.entries, clock + recentTtl);
      assert |before| < recent.capacity || addr in before || Live(before, now) == before;
      NoneAfterLater(before, clock + recentTtl, now + recentTtl);
      victim := recent.Record(addr, now + recentTtl);
      RecordLive(before, Deadlines(recent.entries), victim, addr, now + recentTtl, now, recent.capacity);
      clock := now;
    }

    /** Whether the endpoint was probed within the TTL. */
    method ContainsRecent(addr: Addr, now: Instant) returns (r: bool)
      requires Valid() && clock <= now
      modifies recent
      ensures Valid() && RecentAt(now) == old(RecentAt(now))
      ensures r <==> addr in RecentAt(now)
      ensures DueChecks(now) == 0 || DueChecks(now) < old(DueChecks(now))
    {
      ExpireRecent(now);
      r := recent.Contains(addr, now);
    }

    /** Queue a node unless it is invalid, queued or recent, or the warmed pool has no replacement token. */
    method Admit(node: Node, now: Instant) returns (outcome: Admission)
      requires Valid() && clock <= now
      modifies this`queue, this`queued, this`replacements, this`warmed, recent
      ensures Valid() && RecentAt(now) == old(RecentAt(now))
      ensures (View(), outcome) == Offered(old(View()), RecentAt(now).Keys, node, now, capacity)
      ensures outcome != Invalid ==> DueChecks(now) == 0 || DueChecks(now) < old(DueChecks(now))
    {
      hide Linked, Heap, Checks, Live, Retained, Deadlines, KeysBelow, NoneAfter, Due, IsValidNodeAddr, Distinct, Addrs,
           Entered;
      if !IsValidNodeAddr(node.addr) {
        return Invalid;
      }
      ExpireRecent(now);
      var known := recent.Contains(node.addr, now);
      if node.addr in queued || known {
        return Duplicate;
      }
      outcome := AdmitNew(node, now);
    }

    /** Queue a node that is neither queued nor recent. */
    method AdmitNew(node: Node, now: Instant) returns (outcome: Admission)
      requires Valid() && node.addr !in queued
      modifies this`queue, this`queued, this`replacements, this`warmed
      ensures Valid() && (View(), outcome) == Entered(old(View()), node, now, capacity)
    {
      hide Linked, Heap, Checks, Deadlines, KeysBelow, NoneAfter, Distinct, Addrs, TakeExact, Level;
      if warmed {
        TakeExactLevel(replacements, 1, now);
        var taken := TakeExact(replacements, 1, now);
        replacements := taken.0;
        if !taken.1 {
          return RateLimited;
        }
      }
      var replaced := Enqueue(node, now);
      outcome := if replaced then Replaced else Admitted;
    }

    /** Append a node that is not queued, in place of the oldest one if the pool is full. */
    method Enqueue(node: Node, now: Instant) returns (replaced: bool)
      requires Valid() && node.addr !in queued
      modifies this`queue, this`queued, this`warmed
      ensures Valid() && (replaced <==> |old(queue)| == capacity) && warmed == (old(warmed) || |queue| >= capacity)
      ensures queue == (if replaced then old(queue)[1..] else old(queue)) + [Queued(node, now)]
    {
      hide Linked, Heap, Checks, Deadlines, KeysBelow, NoneAfter, Distinct, Addrs;
      replaced := |queue| >= capacity;
      if replaced {
        PopFront(queue);
        queued := queued - {queue[0].node.addr};
        queue := queue[1..];
      }
      PushBack(queue, Queued(node, now));
      queued := queued + {node.addr};
      queue := queue + [Queued(node, now)];
      if |queue| >= capacity {
        warmed := true;
      }
    }

    /** Move the head behind the others; it stays queued and is not marked as probed. */
    method RotateFrontToBack() returns (moved: bool)
      requires Valid()
      modifies this`queue
      ensures Valid() && (moved <==> |old(queue)| > 1)
      ensures queue == if moved then old(queue)[1..] + [old(queue)[0]] else old(queue)
    {
      if |queue| <= 1 {
        return false;
      }
      PopFront(queue);
      PushBack(queue[1..], queue[0]);
      assert queue[0].node.addr in Addrs(queue);
      queue := queue[1..] + [queue[0]];
      return true;
    }

    /** Take the head and mark it as probed. */
    method TakeFrontForProbe(now: Instant) returns (node: Option<Node>, ghost victim: Option<Addr>)
      requires Valid() && clock <= now
      modifies this`queue, this`queued, this`clock, recent
      ensures Valid()
      ensures node.None? <==> old(queue) == []
      ensures node.None? ==> queue == [] && victim == None && RecentAt(now) == old(RecentAt(now)) && clock == old(clock)
      ensures node.Some? ==>
        && node.value == old(queue)[0].node && queue == old(queue)[1..] && clock == now && CanRestore(node.value.addr)
        && (victim.Some? <==> node.value.addr !in old(RecentAt(now)) && |old(RecentAt(now))| == recent.capacity)
        && (victim.Some? ==> victim.value in old(RecentAt(now)))
        && RecentAt(now) == Probed(old(RecentAt(now)), victim, node.value.addr, now + recentTtl)
    {
      if queue == [] {
        return None, None;
      }
      hide Linked, Heap, Checks, Live, Retained, Deadlines, KeysBelow, NoneAfter, Probed;
      var entry := queue[0];
      PopFront(queue);
      queued := queued - {entry.node.addr};
      queue := queue[1..];
      victim := RecordProbe(entry.node.addr, now);
      node := Some(entry.node);
    }

    /** Undo a take whose dispatch was refused: back to the head, and not probed. */
    method RestoreFront(node: Node, queuedAt: Instant)
      requires Valid() && CanRestore(node.addr)
      modifies this`queue, this`queued, recent
      ensures Valid() && queue == [Queued(node, queuedAt)] + old(queue)
      ensures Deadlines(recent.entries) == old(Deadlines(recent.entries)) - {node.addr}
    {
      hide Linked, Heap, Checks, Live, Retained, KeysBelow;
      recent.Remove(node.addr);
      PushFront(queue, Queued(node, queuedAt));
      queued := queued + {node.addr};
      queue := [Queued(node, queuedAt)] + queue;
    }
  }

  /** How a mark is lost before its time. A node is queued; it is probed by another way and so becomes recent while it
      waits; at the head it is taken, cannot be sent to, and is put back: its mark is gone a moment after it was set. */
  method LosesMark(node: Node, ttl: nat, now: Instant) returns (before: bool, after: bool)
    requires IsValidNodeAddr(node.addr) && ttl > 0
    ensures before && !after
  {
    hide IsValidNodeAddr, NodePool.Valid;
    var pool := new NodePool(1, 60, ttl, 4, now);
    AdmitFirst(pool, node, now);
    ghost var none := pool.RecordProbe(node.addr, now);
    before := pool.ContainsRecent(node.addr, now);
    var taken; ghost var victim;
    taken, victim := pool.TakeFrontForProbe(now);
    pool.RestoreFront(taken.value, now);
    after := pool.ContainsRecent(node.addr, now);
  }

  method AdmitFirst(pool: NodePool, node: Node, now: Instant)
    requires pool.Valid() && pool.clock == now && pool.View() == Line([], pool.replacements, false)
    requires pool.capacity == 1
    requires pool.recent.entries == map[] && IsValidNodeAddr(node.addr)
    modifies pool`queue, pool`queued, pool`replacements, pool`warmed, pool.recent
    ensures pool.Valid() && pool.queue == [Queued(node, now)]
  {
    hide IsValidNodeAddr;
    var outcome := pool.Admit(node, now);
  }
}
