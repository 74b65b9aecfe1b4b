/** The bounded, deduplicating queue of hashes waiting for a metadata job, with its five ordered indexes. */
module PendingQueues {
  import opened Common
  import opened Nodes
  import opened Sorting

  /** A 160-bit info hash; only its identity matters here. */
  type Hash = nat

  /** An index key: a time, and the insertion number that makes it unique. */
  datatype Stamp = Stamp(at: Instant, number: nat)

  predicate StampLess(x: Stamp, y: Stamp) {
    x.at < y.at || (x.at == y.at && x.number < y.number)
  }

  datatype Source = Announce | GetPeers | Sample

  datatype Peer = Peer(addr: Addr, discoveredAt: Instant)

  datatype Entry = Entry(hash: Hash, peers: seq<Peer>, queuedAt: Instant, readyAt: Instant, latestAt: Instant,
                         number: nat, sourceNodes: seq<Node>, source: Source, expiresAt: Instant, isRetry: bool,
                         ready: bool)

  datatype Event = Event(hash: Hash, peer: Option<Addr>, node: Option<Node>, source: Source, discoveredAt: Instant)

  // ---------- the five indexes ----------

  datatype Lane = Expiry | RetryExpiry | Waiting | ReadyFresh | ReadyRetry

  /** Which entries an index lists. */
  predicate Lists(lane: Lane, e: Entry) {
    match lane
    case Expiry => true
    case RetryExpiry => e.isRetry
    case Waiting => !e.ready
    case ReadyFresh => e.ready && !e.isRetry
    case ReadyRetry => e.ready && e.isRetry
  }

  /** The key an index lists an entry under. */
  function KeyOf(lane: Lane, e: Entry): Stamp {
    match lane
    case Expiry => Stamp(e.expiresAt, e.number)
    case RetryExpiry => Stamp(e.expiresAt, e.number)
    case Waiting => Stamp(e.readyAt, e.number)
    case ReadyFresh => Stamp(e.latestAt, e.number)
    case ReadyRetry => Stamp(e.readyAt, e.number)
  }

  /** Index `m` lists exactly the entries of its lane, each under its own key. */
  ghost predicate Indexes(m: map<Stamp, Hash>, lane: Lane, entries: map<Hash, Entry>) {
    && (forall k :: k in m ==> m[k] in entries && Lists(lane, entries[m[k]]) && KeyOf(lane, entries[m[k]]) == k)
    && (forall h :: h in entries && Lists(lane, entries[h]) ==>
          KeyOf(lane, entries[h]) in m && m[KeyOf(lane, entries[h])] == h)
  }

  /** Entries are stored under their own hash and have different numbers, none above `last`. */
  ghost predicate Numbered(entries: map<Hash, Entry>, last: nat) {
    && (forall h :: h in entries ==> entries[h].hash == h && entries[h].number <= last)
    && (forall g, h :: g in entries && h in entries && g != h ==> entries[g].number != entries[h].number)
  }

  lemma IndexInsert(m: map<Stamp, Hash>, lane: Lane, entries: map<Hash, Entry>, e: Entry)
    requires Indexes(m, lane, entries) && e.hash !in entries
    requires forall h :: h in entries ==> entries[h].number != e.number
    ensures Indexes(if Lists(lane, e) then m[KeyOf(lane, e) := e.hash] else m, lane, entries[e.hash := e])
  {
    forall h | h in entries && Lists(lane, entries[h]) ensures KeyOf(lane, entries[h]) != KeyOf(lane, e) {
    }
  }

  lemma IndexRemove(m: map<Stamp, Hash>, lane: Lane, entries: map<Hash, Entry>, h: Hash, last: nat)
    requires Indexes(m, lane, entries) && Numbered(entries, last) && h in entries
    ensures Indexes(m - {KeyOf(lane, entries[h])}, lane, entries - {h})
  {
    var rest, left := m - {KeyOf(lane, entries[h])}, entries - {h};
    forall g | g in left && Lists(lane, left[g])
      ensures KeyOf(lane, left[g]) in rest && rest[KeyOf(lane, left[g])] == g
    {
      assert entries[g].number != entries[h].number;
    }
    forall k | k in rest ensures rest[k] in left {
    }
  }

  /** The entries of a lane. */
  ghost function Members(lane: Lane, entries: map<Hash, Entry>): set<Hash> {
    set h | h in entries && Lists(lane, entries[h])
  }

  /** An index has one key for each entry of its lane. */
  lemma {:induction false} IndexSize(m: map<Stamp, Hash>, lane: Lane, entries: map<Hash, Entry>, last: nat)
    requires Indexes(m, lane, entries) && Numbered(entries, last)
    ensures |m| == |Members(lane, entries)|
    decreases |m|
  {
    if m == map[] {
      assert Members(lane, entries) == {};
    } else {
      var k :| k in m;
      var h := m[k];
      IndexRemove(m, lane, entries, h, last);
      KeyMember(m, lane, entries, k);
      hide Indexes, Numbered;
      SizeDrop(m, k);
      IndexSize(m - {k}, lane, entries - {h}, last);
    }
  }

  lemma KeyMember(m: map<Stamp, Hash>, lane: Lane, entries: map<Hash, Entry>, k: Stamp)
    requires Indexes(m, lane, entries) && k in m
    ensures m[k] in entries && KeyOf(lane, entries[m[k]]) == k && m[k] in Members(lane, entries)
    ensures Members(lane, entries - {m[k]}) == Members(lane, entries) - {m[k]}
  {
  }

  datatype Indices = Indices(expiry: map<Stamp, Hash>, retryExpiry: map<Stamp, Hash>, waiting: map<Stamp, Hash>,
                             readyFresh: map<Stamp, Hash>, readyRetry: map<Stamp, Hash>)

  /** Every index lists exactly its entries: one expiry key and one scheduling key for each hash, and a
      retry key for each retry. */
  ghost predicate AllIndexed(x: Indices, entries: map<Hash, Entry>, last: nat) {
    && Numbered(entries, last)
    && Indexes(x.expiry, Expiry, entries) && Indexes(x.retryExpiry, RetryExpiry, entries)
    && Indexes(x.waiting, Waiting, entries)
    && Indexes(x.readyFresh, ReadyFresh, entries) && Indexes(x.readyRetry, ReadyRetry, entries)
  }

  /** An index with `e` listed, if its lane lists it. */
  ghost function Listing(m: map<Stamp, Hash>, lane: Lane, e: Entry): map<Stamp, Hash> {
    if Lists(lane, e) then m[KeyOf(lane, e) := e.hash] else m
  }

  lemma NumberedInsert(entries: map<Hash, Entry>, e: Entry)
    requires e.number > 0 && Numbered(entries, e.number - 1) && e.hash !in entries
    ensures Numbered(entries[e.hash := e], e.number)
    ensures forall h :: h in entries ==> entries[h].number != e.number
  {
  }

  lemma InsertOk(x: Indices, entries: map<Hash, Entry>, e: Entry)
    requires e.number > 0 && AllIndexed(x, entries, e.number - 1) && e.hash !in entries
    ensures AllIndexed(Indices(Listing(x.expiry, Expiry, e), Listing(x.retryExpiry, RetryExpiry, e),
                               Listing(x.waiting, Waiting, e), Listing(x.readyFresh, ReadyFresh, e),
                               Listing(x.readyRetry, ReadyRetry, e)), entries[e.hash := e], e.number)
  {
    hide Indexes, KeyOf, Lists;
    NumberedInsert(entries, e);
    IndexInsert(x.expiry, Expiry, entries, e);
    IndexInsert(x.retryExpiry, RetryExpiry, entries, e);
    IndexInsert(x.waiting, Waiting, entries, e);
    IndexInsert(x.readyFresh, ReadyFresh, entries, e);
    IndexInsert(x.readyRetry, ReadyRetry, entries, e);
  }

  lemma RemoveOk(x: Indices, entries: map<Hash, Entry>, h: Hash, last: nat)
    requires AllIndexed(x, entries, last) && h in entries
    ensures var e := entries[h];
      AllIndexed(Indices(x.expiry - {KeyOf(Expiry, e)}, x.retryExpiry - {KeyOf(RetryExpiry, e)},
                         x.waiting - {KeyOf(Waiting, e)}, x.readyFresh - {KeyOf(ReadyFresh, e)},
                         x.readyRetry - {KeyOf(ReadyRetry, e)}), entries - {h}, last)
  {
    hide Indexes, KeyOf;
    IndexRemove(x.expiry, Expiry, entries, h, last);
    IndexRemove(x.retryExpiry, RetryExpiry, entries, h, last);
    IndexRemove(x.waiting, Waiting, entries, h, last);
    IndexRemove(x.readyFresh, ReadyFresh, entries, h, last);
    IndexRemove(x.readyRetry, ReadyRetry, entries, h, last);
  }

  /** The hashes that press for a job now. */
  ghost function Pressing(entries: map<Hash, Entry>): set<Hash> {
    set h | h in entries && (!entries[h].isRetry || entries[h].ready)
  }

  // ---------- first and last keys ----------

  predicate IsFirst(m: map<Stamp, Hash>, k: Stamp) {
    k in m && forall j :: j in m ==> !StampLess(j, k)
  }

  predicate IsLast(m: map<Stamp, Hash>, k: Stamp) {
    k in m && forall j :: j in m ==> !StampLess(k, j)
  }

  lemma {:induction false} FirstExists(m: map<Stamp, Hash>) returns (k: Stamp)
    requires m != map[]
    ensures IsFirst(m, k)
    decreases |m|
  {
    var x :| x in m;
    if j :| j in m && StampLess(j, x) {
      assert (m - {x}).Keys == m.Keys - {x};
      k := FirstExists(m - {x});
      assert !StampLess(j, k);
    } else {
      k := x;
    }
  }

  lemma {:induction false} LastExists(m: map<Stamp, Hash>) returns (k: Stamp)
    requires m != map[]
    ensures IsLast(m, k)
    decreases |m|
  {
    var x :| x in m;
    if j :| j in m && StampLess(x, j) {
      assert (m - {x}).Keys == m.Keys - {x};
      k := LastExists(m - {x});
      assert !StampLess(k, j);
    } else {
      k := x;
    }
  }

  method First(m: map<Stamp, Hash>) returns (k: Stamp)
    requires m != map[]
    ensures IsFirst(m, k)
  {
    ghost var least := FirstExists(m);
    k :| k in m && forall j :: j in m ==> !StampLess(j, k);
  }

  method Last(m: map<Stamp, Hash>) returns (k: Stamp)
    requires m != map[]
    ensures IsLast(m, k)
  {
    ghost var greatest := LastExists(m);
    k :| k in m && forall j :: j in m ==> !StampLess(k, j);
  }

  // ---------- merging candidates ----------

  const MAX_CANDIDATES: nat := 64
  const MAX_SOURCE_NODES: nat := 8

  function Without(peers: seq<Peer>, addr: Addr): (r: seq<Peer>)
    ensures |r| <= |peers|
    ensures forall p :: p in r <==> p in peers && p.addr != addr
  {
    if peers == [] then []
    else (if peers[0].addr != addr then [peers[0]] else []) + Without(peers[1..], addr)
  }

  predicate Knows(peers: seq<Peer>, addr: Addr) {
    exists p :: p in peers && p.addr == addr
  }

  ghost predicate DistinctPeers(peers: seq<Peer>) {
    forall i, j :: 0 <= i < j < |peers| ==> peers[i].addr != peers[j].addr
  }

  ghost predicate NewestFirst(peers: seq<Peer>) {
    forall i, j :: 0 <= i < j < |peers| ==> peers[i].discoveredAt >= peers[j].discoveredAt
  }

  /** A well-formed candidate list. */
  ghost predicate PeerList(peers: seq<Peer>) {
    DistinctPeers(peers) && NewestFirst(peers) && |peers| <= MAX_CANDIDATES
  }

  lemma {:induction false} WithoutDistinct(peers: seq<Peer>, addr: Addr)
    requires DistinctPeers(peers)
    ensures DistinctPeers(Without(peers, addr))
  {
    if peers == [] {
    } else {
      WithoutDistinct(peers[1..], addr);
      var rest := Without(peers[1..], addr);
      assert forall i :: 0 <= i < |rest| ==> rest[i] in rest;
      assert forall i :: 1 <= i < |peers| ==> peers[1..][i - 1] == peers[i];
    }
  }

  predicate NewerLe(x: Peer, y: Peer) {
    x.discoveredAt > y.discoveredAt || (x.discoveredAt == y.discoveredAt && AddrLe(x.addr, y.addr))
  }

  /** A newest-first arrangement; the contract leaves the order of equally old peers open. */
  method SortNewest(peers: seq<Peer>) returns (r: seq<Peer>)
    ensures multiset(r) == multiset(peers) && NewestFirst(r)
  {
    var le := (x, y) => NewerLe(x, y);
    assert TotalOrder(le) by {
      forall x, y ensures (le(x, y) || le(y, x)) && (le(x, y) && le(y, x) ==> x == y) {
        AddrTotal(x.addr, y.addr);
      }
      forall x, y, z | le(x, y) && le(y, z) ensures le(x, z) {
        if AddrLess(x.addr, y.addr) && AddrLess(y.addr, z.addr) { AddrTransitive(x.addr, y.addr, z.addr); }
      }
    }
    SortSorted(le, peers);
    SortPermutes(le, peers);
    r := Sort(le, peers);
    hide AddrLe, Sort;
    forall i, j | 0 <= i < j < |r| ensures r[i].discoveredAt >= r[j].discoveredAt {
      assert le(r[i], r[j]);
    }
  }

  lemma PermutedDistinct(a: seq<Peer>, b: seq<Peer>)
    requires multiset(a) == multiset(b) && DistinctPeers(a)
    ensures DistinctPeers(b)
  {
    forall i, j | 0 <= i < j < |b| ensures b[i].addr != b[j].addr {
      MultisetMember(a, b);
      assert b[i] in b && b[j] in b;
      var p :| 0 <= p < |a| && a[p] == b[i];
      var q :| 0 <= q < |a| && a[q] == b[j];
      if p == q { TwiceIn(a, b, p, i, j); }
    }
  }

  lemma TwiceIn(a: seq<Peer>, b: seq<Peer>, p: nat, i: nat, j: nat)
    requires multiset(a) == multiset(b) && DistinctPeers(a) && p < |a| && i < j < |b|
    ensures !(b[i] == a[p] && b[j] == a[p])
  {
    var x := a[p];
    assert a == a[..p] + [x] + a[p + 1..];
    assert x !in a[..p] && x !in a[p + 1..];
    assert multiset(a)[x] == 1;
    assert b == b[..i] + [b[i]] + b[i + 1..j] + [b[j]] + b[j + 1..];
    assert multiset(b)[x] >= (if b[i] == x then 1 else 0) + (if b[j] == x then 1 else 0);
  }

  /** The latest time an address was seen, counting now. */
  function LatestSeen(peers: seq<Peer>, addr: Addr, at: Instant): (t: Instant)
    ensures at <= t && forall p :: p in peers && p.addr == addr ==> p.discoveredAt <= t
    ensures t == at || exists p :: p in peers && p.addr == addr && p.discoveredAt == t
  {
    if peers == [] then at
    else
      var rest := LatestSeen(peers[1..], addr, at);
      if peers[0].addr == addr && peers[0].discoveredAt > rest then peers[0].discoveredAt else rest
  }

  /** The candidates once a peer is put among them. */
  function WithPeer(peers: seq<Peer>, addr: Addr, at: Instant): seq<Peer> {
    Without(peers, addr) + [Peer(addr, LatestSeen(peers, addr, at))]
  }

  /** `kept` are the newest 64 of `all`. */
  ghost predicate NewestOf(kept: seq<Peer>, all: seq<Peer>) {
    && PeerList(kept) && |kept| == (if |all| < MAX_CANDIDATES then |all| else MAX_CANDIDATES)
    && (forall p :: p in kept ==> p in all)
    && (forall p, q :: p in all && p !in kept && q in kept ==> p.discoveredAt <= q.discoveredAt)
  }

  lemma TakeNewest(all: seq<Peer>, sorted: seq<Peer>)
    requires multiset(sorted) == multiset(all) && NewestFirst(sorted) && DistinctPeers(all)
    ensures NewestOf(Take(sorted, MAX_CANDIDATES), all)
  {
    PermutedDistinct(all, sorted);
    MultisetMember(sorted, all);
    assert |multiset(sorted)| == |sorted| && |multiset(all)| == |all|;
    var kept := Take(sorted, MAX_CANDIDATES);
    assert forall i :: 0 <= i < |kept| ==> kept[i] == sorted[i] && kept[i] in kept;
    forall p, q | p in sorted && p !in kept && q in kept ensures p.discoveredAt <= q.discoveredAt {
      var i :| 0 <= i < |sorted| && sorted[i] == p;
      var j :| 0 <= j < |kept| && kept[j] == q;
      assert sorted[j] == q;
    }
  }

  lemma WithPeerDistinct(peers: seq<Peer>, addr: Addr, at: Instant)
    requires DistinctPeers(peers)
    ensures DistinctPeers(WithPeer(peers, addr, at))
  {
    WithoutDistinct(peers, addr);
    var rest := Without(peers, addr);
    assert forall i :: 0 <= i < |rest| ==> rest[i] in rest;
  }

  /** Put a peer among the candidates with the latest time it was seen at, newest first, and keep the
      newest 64. */
  method MergePeer(peers: seq<Peer>, addr: Addr, at: Instant) returns (r: seq<Peer>, isNew: bool)
    requires PeerList(peers)
    ensures NewestOf(r, WithPeer(peers, addr, at)) && (isNew <==> forall p :: p in peers ==> p.addr != addr)
  {
    isNew := !Knows(peers, addr);
    var all := WithPeer(peers, addr, at);
    WithPeerDistinct(peers, addr, at);
    hide WithPeer, NewestOf;
    var sorted := SortNewest(all);
    TakeNewest(all, sorted);
    r := Take(sorted, MAX_CANDIDATES);
  }

  function WithoutNode(nodes: seq<Node>, addr: Addr): seq<Node> {
    if nodes == [] then []
    else (if nodes[0].addr != addr then [nodes[0]] else []) + WithoutNode(nodes[1..], addr)
  }

  function Latest(x: Instant, y: Instant): Instant {
    if x < y then y else x
  }

  /** No endpoint twice, and eight at most. */
  ghost predicate SourceList(nodes: seq<Node>) {
    |nodes| <= MAX_SOURCE_NODES && forall i, j :: 0 <= i < j < |nodes| ==> nodes[i].addr != nodes[j].addr
  }

  lemma {:induction false} WithoutNodeIs(nodes: seq<Node>, addr: Addr)
    requires forall i, j :: 0 <= i < j < |nodes| ==> nodes[i].addr != nodes[j].addr
    ensures var rest := WithoutNode(nodes, addr);
      && |rest| <= |nodes| && (forall n :: n in rest <==> n in nodes && n.addr != addr)
      && forall i, j :: 0 <= i < j < |rest| ==> rest[i].addr != rest[j].addr
  {
    WithoutNodeIn(nodes, addr);
    if nodes == [] {
    } else {
      WithoutNodeIs(nodes[1..], addr);
      WithoutNodeIn(nodes[1..], addr);
      var rest := WithoutNode(nodes[1..], addr);
      forall i | 0 <= i < |rest| ensures rest[i].addr != nodes[0].addr {
        assert rest[i] in rest;
        var j :| 0 <= j < |nodes[1..]| && nodes[1..][j] == rest[i];
        assert nodes[j + 1] == rest[i];
      }
    }
  }

  lemma {:induction false} WithoutNodeIn(nodes: seq<Node>, addr: Addr)
    ensures |WithoutNode(nodes, addr)| <= |nodes|
    ensures forall n :: n in WithoutNode(nodes, addr) <==> n in nodes && n.addr != addr
  {
    if nodes == [] {
    } else {
      WithoutNodeIn(nodes[1..], addr);
      assert nodes == [nodes[0]] + nodes[1..];
    }
  }

  /** Merging keeps the nodes that reported a hash different and eight at most, the latest first; those before it stay,
      unless it takes the place of the oldest; and an announcement is not forgotten. */
  lemma MergedSources(e: Entry, event: Event, peers: seq<Peer>)
    requires SourceList(e.sourceNodes)
    ensures var m := Merged(e, event, peers);
      && SourceList(m.sourceNodes)
      && (event.node.None? ==> m.sourceNodes == e.sourceNodes)
      && (event.node.Some? ==> m.sourceNodes != [] && m.sourceNodes[0] == event.node.value)
      && (event.node.Some? ==> forall n :: n in m.sourceNodes ==> n == event.node.value || n in e.sourceNodes)
      && (event.node.Some? && |e.sourceNodes| < MAX_SOURCE_NODES ==>
            forall n :: n in e.sourceNodes && n.addr != event.node.value.addr ==> n in m.sourceNodes)
      && (m.source == Announce <==> event.source == Announce || e.source == Announce)
  {
    if event.node.Some? {
      var node := event.node.value;
      WithoutNodeIs(e.sourceNodes, node.addr);
      FirstOfAll(node, WithoutNode(e.sourceNodes, node.addr));
      hide WithoutNode, Take;
    }
  }

  lemma FirstOfAll(node: Node, rest: seq<Node>)
    requires |rest| <= MAX_SOURCE_NODES && forall n :: n in rest ==> n.addr != node.addr
    requires forall i, j :: 0 <= i < j < |rest| ==> rest[i].addr != rest[j].addr
    ensures var all := Take([node] + rest, MAX_SOURCE_NODES);
      && SourceList(all) && all != [] && all[0] == node && (forall n :: n in all ==> n == node || n in rest)
      && (|rest| < MAX_SOURCE_NODES ==> all == [node] + rest)
  {
    var all := [node] + rest;
    forall i, j | 0 <= i < j < |all| ensures all[i].addr != all[j].addr {
      assert all[j] == rest[j - 1] && rest[j - 1] in rest;
      if i > 0 {
        assert all[i] == rest[i - 1];
      }
    }
    FirstOf(all);
  }

  lemma FirstOf(all: seq<Node>)
    requires forall i, j :: 0 <= i < j < |all| ==> all[i].addr != all[j].addr
    ensures SourceList(Take(all, MAX_SOURCE_NODES)) && forall n :: n in Take(all, MAX_SOURCE_NODES) ==> n in all
  {
    var few := Take(all, MAX_SOURCE_NODES);
    assert forall i :: 0 <= i < |few| ==> few[i] == all[i];
  }

  /** The entry once an event for its hash is merged, given its merged candidates. */
  function Merged(e: Entry, event: Event, peers: seq<Peer>): Entry {
    e.(peers := peers,
       sourceNodes := if event.node.None? then e.sourceNodes
                      else Take([event.node.value] + WithoutNode(e.sourceNodes, event.node.value.addr),
                                MAX_SOURCE_NODES),
       source := if event.source == Announce then Announce else e.source,
       latestAt := Latest(e.latestAt, event.discoveredAt))
  }

  ghost predicate MergedPeers(before: seq<Peer>, event: Event, after: seq<Peer>) {
    if event.peer.Some? then NewestOf(after, WithPeer(before, event.peer.value, event.discoveredAt))
    else after == before
  }

  method MergeCandidate(e: Entry, event: Event) returns (r: Entry, isNew: bool)
    requires PeerList(e.peers)
    ensures MergedPeers(e.peers, event, r.peers) && r == Merged(e, event, r.peers) && PeerList(r.peers)
    ensures isNew <==> event.peer.Some? && forall p :: p in e.peers ==> p.addr != event.peer.value
  {
    var peers := e.peers;
    isNew := false;
    if event.peer.Some? {
      peers, isNew := MergePeer(peers, event.peer.value, event.discoveredAt);
    }
    r := Merged(e, event, peers);
  }

  // ---------- the queue ----------

  const COALESCE_WINDOW: nat := 25 * MILLIS

  datatype PushKind = Inserted | Updated | EvictedOldest | EvictedRetry | Stale

  /** Fresh entries live for `ttl` after they were last seen; candidate lists are well formed. */
  ghost predicate Fitting(entries: map<Hash, Entry>, ttl: nat) {
    forall h :: h in entries ==>
      PeerList(entries[h].peers) && (!entries[h].isRetry ==> entries[h].expiresAt == entries[h].latestAt + ttl)
  }

  function RetryLimit(capacity: nat): (r: nat)
    ensures r >= 1 && capacity < 4 * (r + 1) && (r > 1 ==> 4 * r <= capacity)
  {
    if capacity / 4 == 0 then 1 else capacity / 4
  }

  /** The size bounds: the whole queue, and the share of retries in it. */
  ghost predicate Bounded(entries: map<Hash, Entry>, ttl: nat, capacity: nat) {
    && Fitting(entries, ttl) && capacity > 0
    && |entries| <= capacity && |Members(RetryExpiry, entries)| <= RetryLimit(capacity)
  }

  class PendingQueue {
    const capacity: nat
    const ttl: nat
    var entries: map<Hash, Entry>
    var expiry: map<Stamp, Hash>
    var waiting: map<Stamp, Hash>
    var readyFresh: map<Stamp, Hash>
    var readyRetry: map<Stamp, Hash>
    var retryExpiry: map<Stamp, Hash>
    var sequence: nat
    var freshDispatches: nat
    /** Every pop so far. */
    ghost var pops: seq<Pop>

    ghost function View(): Indices
      reads this
    {
      Indices(expiry, retryExpiry, waiting, readyFresh, readyRetry)
    }

    ghost predicate Indexed()
      reads this
    {
      AllIndexed(View(), entries, sequence)
    }

    ghost predicate Kept()
      reads this
    {
      Indexed() && Bounded(entries, ttl, capacity) && freshDispatches <= 255
    }

    ghost predicate Valid()
      reads this
    {
      Kept() && PopRun(pops, freshDispatches)
    }

    /** Over every run: of any four consecutive pops with a retry due, one took a retry; and after a retry, with fresh
        work ready, the next three took fresh jobs. */
    lemma Fairness(i: nat)
      requires Valid() && i + 4 <= |pops|
      ensures (forall j :: i <= j < i + 4 ==> RetryDue(pops[j])) ==> exists j :: i <= j < i + 4 && TookRetry(pops[j])
      ensures TookRetry(pops[i]) && (forall j :: i < j < i + 4 ==> FreshReady(pops[j])) ==>
        forall j :: i < j < i + 4 ==> pops[j].taken.Some? && !TookRetry(pops[j])
    {
      hide AllIndexed, Bounded, RetryDue, FreshReady, PopRun;
      if forall j :: i <= j < i + 4 ==> RetryDue(pops[j]) {
        RetryWithinFour(pops, freshDispatches, i);
      }
      if TookRetry(pops[i]) && forall j :: i < j < i + 4 ==> FreshReady(pops[j]) {
        ThreeFreshAfterRetry(pops, freshDispatches, i);
      }
    }

    constructor (limit: nat, lifetime: nat)
      ensures Valid() && entries == map[] && capacity == (if limit == 0 then 1 else limit) && ttl == lifetime
      ensures freshDispatches == 0 && pops == []
    {
      capacity := if limit == 0 then 1 else limit;
      ttl := lifetime;
      entries, expiry, waiting, readyFresh, readyRetry, retryExpiry := map[], map[], map[], map[], map[], map[];
      sequence, freshDispatches, pops := 0, 0, [];
      new;
      assert Members(RetryExpiry, entries) == {};
    }

    /** What counts as pressure: fresh hashes and due retries, not retries still cooling. */
    method PressureLen() returns (n: nat)
      requires Valid()
      ensures n == |Pressing(entries)|
    {
      IndexSize(retryExpiry, RetryExpiry, entries, sequence);
      IndexSize(readyRetry, ReadyRetry, entries, sequence);
      PressureSets(entries);
      hide *;
      n := |entries| - |retryExpiry| + |readyRetry|;
    }

    method Insert(entry: Entry)
      requires Indexed() && entry.hash !in entries
      modifies this`entries, this`expiry, this`waiting, this`readyFresh, this`readyRetry, this`retryExpiry
      modifies this`sequence
      ensures Indexed() && sequence == old(sequence) + 1
      ensures entries == old(entries)[entry.hash := entry.(number := sequence)]
    {
      hide AllIndexed, KeyOf;
      sequence := sequence + 1;
      var e := entry.(number := sequence);
      InsertOk(View(), entries, e);
      expiry := expiry[KeyOf(Expiry, e) := e.hash];
      if e.isRetry {
        retryExpiry := retryExpiry[KeyOf(RetryExpiry, e) := e.hash];
      }
      if e.ready {
        if e.isRetry {
          readyRetry := readyRetry[KeyOf(ReadyRetry, e) := e.hash];
        } else {
          readyFresh := readyFresh[KeyOf(ReadyFresh, e) := e.hash];
        }
      } else {
        waiting := waiting[KeyOf(Waiting, e) := e.hash];
      }
      entries := entries[e.hash := e];
    }

    method Remove(hash: Hash) returns (r: Option<Entry>)
      requires Indexed()
      modifies this`entries, this`expiry, this`waiting, this`readyFresh, this`readyRetry, this`retryExpiry
      ensures Indexed() && entries == old(entries) - {hash}
      ensures r == if hash in old(entries) then Some(old(entries)[hash]) else None
    {
      hide AllIndexed, KeyOf;
      if hash !in entries {
        assert entries - {hash} == entries;
        return None;
      }
      RemoveOk(View(), entries, hash, sequence);
      var e := entries[hash];
      expiry := expiry - {KeyOf(Expiry, e)};
      retryExpiry := retryExpiry - {KeyOf(RetryExpiry, e)};
      waiting := waiting - {KeyOf(Waiting, e)};
      readyFresh := readyFresh - {KeyOf(ReadyFresh, e)};
      readyRetry := readyRetry - {KeyOf(ReadyRetry, e)};
      entries := entries - {hash};
      return Some(e);
    }

    /** Take a hash out of a queue that is in order. */
    method Withdraw(hash: Hash) returns (r: Option<Entry>)
      requires Valid()
      modifies this`entries, this`expiry, this`waiting, this`readyFresh, this`readyRetry, this`retryExpiry
      ensures Valid() && entries == old(entries) - {hash}
      ensures r == if hash in old(entries) then Some(old(entries)[hash]) else None
      ensures r.Some? ==> r.value.hash == hash && PeerList(r.value.peers)
    {
      hide AllIndexed, Bounded, PeerList;
      if hash in entries { KnownOk(View(), entries, sequence, ttl, capacity, hash); }
      Reduced(entries, hash, ttl, capacity);
      r := Remove(hash);
    }

    /** The hash that a newcomer would displace: the retry that expires first, else the fresh hash that
        expires first. */
    method Oldest() returns (h: Hash)
      requires Valid() && entries != map[]
      ensures FirstToGo(entries, h)
    {
      if retryExpiry != map[] {
        var k := First(retryExpiry);
        h := retryExpiry[k];
        OldestRetry(retryExpiry, entries, k);
      } else {
        ghost var some :| some in entries;
        assert KeyOf(Expiry, entries[some]) in expiry;
        var k := First(expiry);
        h := expiry[k];
        OldestFresh(expiry, retryExpiry, entries, k, ttl);
      }
    }

    /** Merge a discovery of a hash that is queued already. */
    method PushKnown(event: Event)
      requires Valid() && event.hash in entries
      modifies this`entries, this`expiry, this`waiting, this`readyFresh, this`readyRetry, this`retryExpiry
      modifies this`sequence
      ensures Valid() && Others(old(entries), entries, event.hash) && event.hash in entries
      ensures Refreshes(old(entries)[event.hash], event, entries[event.hash], ttl)
    {
      hide AllIndexed, Bounded, Refreshes, Others, PeerList;
      KnownOk(View(), entries, sequence, ttl, capacity, event.hash);
      ghost var before := entries;
      var removed := Remove(event.hash);
      var e := RefreshEntry(removed.value, event, ttl);
      Insert(e);
      Renumbered(removed.value, event, e, ttl, sequence);
      Replaced(before, event, entries[event.hash], ttl, capacity);
    }

    method PushNew(event: Event, now: Instant)
      requires Valid() && event.hash !in entries && |entries| < capacity
      modifies this`entries, this`expiry, this`waiting, this`readyFresh, this`readyRetry, this`retryExpiry
      modifies this`sequence
      ensures Valid() && Others(old(entries), entries, event.hash) && event.hash in entries
      ensures Refreshes(Blank(event, now), event, entries[event.hash], ttl)
    {
      hide AllIndexed, Bounded, Refreshes, Others, Blank;
      ghost var before := entries;
      BlankOk(event, now);
      var e := RefreshEntry(Blank(event, now), event, ttl);
      Insert(e);
      Renumbered(Blank(event, now), event, e, ttl, sequence);
      Added(before, event, now, entries[event.hash], ttl, capacity);
    }

    /** Displace a hash to make room for a newcomer, or find the newcomer stale. */
    method MakeRoom(event: Event) returns (kind: PushKind, ghost victim: Hash)
      requires Valid() && |entries| >= capacity
      modifies this`entries, this`expiry, this`waiting, this`readyFresh, this`readyRetry, this`retryExpiry
      ensures Valid() && Displaces(old(entries), event, kind, victim)
      ensures entries == (if kind == Stale then old(entries) else old(entries) - {victim})
      ensures kind != Stale ==> |entries| < capacity
    {
      hide AllIndexed, Bounded, FirstToGo;
      Nonempty(entries, ttl, capacity);
      var oldest := Oldest();
      OldestIn(entries, oldest);
      victim := oldest;
      if !entries[oldest].isRetry && event.discoveredAt <= entries[oldest].latestAt {
        return Stale, victim;
      }
      kind := if entries[oldest].isRetry then EvictedRetry else EvictedOldest;
      Reduced(entries, oldest, ttl, capacity);
      var removed := Remove(oldest);
    }

    /** Take in a discovery: the whole new queue and the verdict are as PushStep says. */
    method Push(event: Event, now: Instant) returns (kind: PushKind, ghost victim: Hash)
      requires Valid()
      modifies this`entries, this`expiry, this`waiting, this`readyFresh, this`readyRetry, this`retryExpiry
      modifies this`sequence
      ensures Valid() && PushStep(old(entries), entries, event, now, ttl, capacity, kind, victim)
    {
      hide AllIndexed, Bounded, Refreshes, Displaces, Others, Blank;
      kind, victim := Inserted, event.hash;
      if now > event.discoveredAt + ttl {
        kind := Stale;
      } else if event.hash in entries {
        PushKnown(event);
        kind := Updated;
      } else {
        if |entries| >= capacity {
          kind, victim := MakeRoom(event);
        }
        if kind != Stale {
          PushNew(event, now);
        }
      }
    }

    /** Queue a hash as a retry, unless the queue or its share for retries is full. */
    method Defer(entry: Entry, nextDue: Instant, expiresAt: Instant) returns (ok: bool)
      requires Valid() && PeerList(entry.peers)
      modifies this`entries, this`expiry, this`waiting, this`readyFresh, this`readyRetry, this`retryExpiry
      modifies this`sequence
      ensures Valid() && DeferStep(old(entries), entries, entry, nextDue, expiresAt, capacity, ok)
    {
      hide AllIndexed, Bounded, Members, KeyOf, PeerList;
      Reduced(entries, entry.hash, ttl, capacity);
      var removed := Remove(entry.hash);
      RetryKeys();
      if |entries| >= capacity || |retryExpiry| >= RetryLimit(capacity) {
        return false;
      }
      ghost var rest := entries;
      Insert(entry.(readyAt := nextDue, expiresAt := expiresAt, isRetry := true, ready := false));
      AddedRetry(rest, entries[entry.hash], ttl, capacity);
      return true;
    }

    /** Mark every waiting entry that is due as ready. */
    method PromoteReady(now: Instant)
      requires Valid()
      modifies this`entries, this`waiting, this`readyFresh, this`readyRetry
      ensures Valid() && entries == Promoted(old(entries), now)
    {
      hide AllIndexed, Bounded, Promoted, IsFirst, KeyOf;
      while waiting != map[]
        invariant Valid() && Promoted(entries, now) == Promoted(old(entries), now)
        decreases |waiting|
      {
        var k := First(waiting);
        FirstIn(waiting, k);
        if k.at > now {
          break;
        }
        var h := waiting[k];
        WaitingEntry(View(), entries, sequence, k);
        PromoteOk(View(), entries, sequence, k);
        PromoteKeeps(entries, h, now, ttl, capacity);
        Shrinks(waiting, k);
        var e := entries[h].(ready := true);
        waiting := waiting - {k};
        if e.isRetry {
          readyRetry := readyRetry[KeyOf(ReadyRetry, e) := h];
        } else {
          readyFresh := readyFresh[KeyOf(ReadyFresh, e) := h];
        }
        entries := entries[h := e];
      }
      AllPromoted(View(), entries, sequence, now);
    }

    /** Drop every entry whose life ended before now. */
    method Expire(now: Instant) returns (expired: nat)
      requires Valid()
      modifies this`entries, this`expiry, this`waiting, this`readyFresh, this`readyRetry, this`retryExpiry
      ensures Valid() && entries == Unexpired(old(entries), now) && expired == |old(entries)| - |entries|
    {
      hide AllIndexed, Bounded, Unexpired, IsFirst;
      expired := 0;
      while expiry != map[]
        invariant Valid() && Unexpired(entries, now) == Unexpired(old(entries), now)
        invariant expired == |old(entries)| - |entries|
        decreases |entries|
      {
        var k := First(expiry);
        FirstIn(expiry, k);
        if k.at >= now {
          break;
        }
        ExpiryEntry(View(), entries, sequence, k);
        UnexpiredDrop(entries, expiry[k], now);
        Reduced(entries, expiry[k], ttl, capacity);
        var removed := Remove(expiry[k]);
        expired := expired + 1;
      }
      NoneExpired(View(), entries, sequence, now);
    }

    /** Take the next of the jobs marked ready: at most three fresh ones before one due retry. */
    method TakeReady() returns (r: Option<Entry>)
      requires Valid()
      modifies this
      ensures Valid() && Popped(old(entries), old(freshDispatches), r, freshDispatches)
      ensures entries == old(entries) - (if r.Some? then {r.value.hash} else {})
      ensures pops == old(pops) + [Pop(old(entries), old(freshDispatches), r)]
    {
      hide AllIndexed, Bounded, Popped, PopRun;
      r := Draw();
      PopMore(pops, old(entries), old(freshDispatches), r, freshDispatches);
      pops := pops + [Pop(old(entries), old(freshDispatches), r)];
    }

    method Draw() returns (r: Option<Entry>)
      requires Kept()
      modifies this`entries, this`expiry, this`waiting, this`readyFresh, this`readyRetry, this`retryExpiry
      modifies this`freshDispatches
      ensures Kept() && Popped(old(entries), old(freshDispatches), r, freshDispatches)
      ensures entries == old(entries) - (if r.Some? then {r.value.hash} else {})
    {
      hide AllIndexed, Bounded, IsFirst, IsLast, Popped, Members;
      ReadyLanes(View(), entries, sequence);
      var useRetry := readyRetry != map[] && (freshDispatches >= 3 || readyFresh == map[]);
      var h := 0;
      if useRetry {
        var k := First(readyRetry);
        RetryPopped(View(), entries, sequence, freshDispatches, k);
        h := readyRetry[k];
      } else if readyFresh != map[] {
        var k := Last(readyFresh);
        FreshPopped(View(), entries, sequence, freshDispatches, k);
        h := readyFresh[k];
      } else {
        NonePopped(entries, freshDispatches);
        NoDrop(entries);
        freshDispatches := Saturating(freshDispatches);
        return None;
      }
      freshDispatches := if useRetry then 0 else Saturating(freshDispatches);
      Reduced(entries, h, ttl, capacity);
      r := Remove(h);
    }

    /** Drop what has expired, mark what is due, and take the next job. */
    method PopNewestReady(now: Instant) returns (r: Option<Entry>)
      requires Valid()
      modifies this
      ensures Valid()
      ensures Popped(Promoted(Unexpired(old(entries), now), now), old(freshDispatches), r, freshDispatches)
      ensures entries == Promoted(Unexpired(old(entries), now), now) - (if r.Some? then {r.value.hash} else {})
      ensures pops == old(pops) + [Pop(Promoted(Unexpired(old(entries), now), now), old(freshDispatches), r)]
    {
      hide AllIndexed, Bounded, Promoted, Unexpired, Popped, PopRun;
      var expired := Expire(now);
      PromoteReady(now);
      r := TakeReady();
    }

    lemma RetryKeys()
      requires Indexed()
      ensures |retryExpiry| == |Members(RetryExpiry, entries)|
    {
      IndexSize(retryExpiry, RetryExpiry, entries, sequence);
    }
  }

  /** Only the entry of `h` may differ. */
  ghost predicate Others(before: map<Hash, Entry>, after: map<Hash, Entry>, h: Hash) {
    before - {h} == after - {h}
  }

  /** `after` is `e` with the event merged in; a fresh entry's life is counted from its latest sighting. */
  ghost predicate Refreshes(e: Entry, event: Event, after: Entry, ttl: nat) {
    && MergedPeers(e.peers, event, after.peers)
    && after == Merged(e, event, after.peers).(number := after.number,
         expiresAt := if e.isRetry then e.expiresAt else Latest(e.latestAt, event.discoveredAt) + ttl)
  }

  /** The entry of a hash just heard of, before its first candidates. */
  function Blank(event: Event, now: Instant): Entry {
    Entry(event.hash, [], now, now + COALESCE_WINDOW, event.discoveredAt, 0, [], event.source, event.discoveredAt,
        false, false)
  }

  ghost predicate LeastRecent(entries: map<Hash, Entry>, h: Hash) {
    h in entries && forall g :: g in entries ==> entries[h].latestAt <= entries[g].latestAt
  }

  /** `h` is a retry with the earliest expiry; or there is no retry and `h` was seen least recently. */
  ghost predicate FirstToGo(entries: map<Hash, Entry>, h: Hash) {
    && h in entries
    && if entries[h].isRetry
       then forall g :: g in entries && entries[g].isRetry ==> entries[h].expiresAt <= entries[g].expiresAt
       else (forall g :: g in entries ==> !entries[g].isRetry) && LeastRecent(entries, h)
  }

  /** Who goes when a newcomer finds the queue full, and the verdict. A fresh hash goes only when there is no
      retry, it was seen least recently, and the newcomer is strictly newer. */
  ghost predicate Displaces(before: map<Hash, Entry>, event: Event, kind: PushKind, victim: Hash) {
    && FirstToGo(before, victim) && victim in before
    && kind == if before[victim].isRetry then EvictedRetry
               else if event.discoveredAt <= before[victim].latestAt then Stale
               else EvictedOldest
  }

  /** What a push does to the queue. */
  ghost predicate PushStep(before: map<Hash, Entry>, after: map<Hash, Entry>, event: Event, now: Instant, ttl: nat,
                           capacity: nat, kind: PushKind, victim: Hash) {
    if event.discoveredAt + ttl < now then kind == Stale && after == before
    else if event.hash in before then
      kind == Updated && Others(before, after, event.hash) && event.hash in after &&
      Refreshes(before[event.hash], event, after[event.hash], ttl)
    else
      && (if |before| < capacity then kind == Inserted else Displaces(before, event, kind, victim))
      && if kind == Stale then after == before
         else
           && Others(if |before| < capacity then before else before - {victim}, after, event.hash)
           && event.hash in after && Refreshes(Blank(event, now), event, after[event.hash], ttl)
  }

  /** What deferring a hash does to the queue. */
  ghost predicate DeferStep(before: map<Hash, Entry>, after: map<Hash, Entry>, entry: Entry, nextDue: Instant,
                            expiresAt: Instant, capacity: nat, ok: bool) {
    var rest := before - {entry.hash};
    && (ok <==> |rest| < capacity && |Members(RetryExpiry, rest)| < RetryLimit(capacity))
    && (!ok ==> after == rest)
    && (ok ==> && entry.hash in after
               && after == rest[entry.hash := entry.(number := after[entry.hash].number, readyAt := nextDue,
                                                     expiresAt := expiresAt, isRetry := true, ready := false)])
  }

  lemma Nonempty(entries: map<Hash, Entry>, ttl: nat, capacity: nat)
    requires Bounded(entries, ttl, capacity) && |entries| >= capacity
    ensures entries != map[]
  {
  }

  lemma OldestIn(entries: map<Hash, Entry>, h: Hash)
    requires FirstToGo(entries, h)
    ensures h in entries
  {
  }

  lemma OldestRetry(m: map<Stamp, Hash>, entries: map<Hash, Entry>, k: Stamp)
    requires Indexes(m, RetryExpiry, entries) && IsFirst(m, k)
    ensures FirstToGo(entries, m[k])
  {
    forall g | g in entries && entries[g].isRetry ensures entries[m[k]].expiresAt <= entries[g].expiresAt {
      assert KeyOf(RetryExpiry, entries[g]) in m;
    }
  }

  lemma OldestFresh(m: map<Stamp, Hash>, retries: map<Stamp, Hash>, entries: map<Hash, Entry>, k: Stamp, ttl: nat)
    requires Indexes(m, Expiry, entries) && Indexes(retries, RetryExpiry, entries) && retries == map[]
    requires Fitting(entries, ttl) && IsFirst(m, k)
    ensures FirstToGo(entries, m[k])
  {
    forall g | g in entries ensures !entries[g].isRetry && entries[m[k]].latestAt <= entries[g].latestAt {
      assert KeyOf(Expiry, entries[g]) in m;
    }
  }

  lemma MembersAdd(lane: Lane, entries: map<Hash, Entry>, h: Hash, e: Entry)
    requires h !in entries
    ensures Members(lane, entries[h := e]) == Members(lane, entries) + (if Lists(lane, e) then {h} else {})
  {
    hide Lists;
  }

  lemma OneMore(entries: map<Hash, Entry>, h: Hash, e: Entry)
    requires h !in entries
    ensures |entries[h := e]| == |entries| + 1
  {
    assert entries[h := e].Keys == entries.Keys + {h};
  }

  lemma MembersDrop(lane: Lane, entries: map<Hash, Entry>, h: Hash)
    ensures Members(lane, entries - {h}) == Members(lane, entries) - {h}
    ensures |entries - {h}| == if h in entries then |entries| - 1 else |entries|
  {
    hide Lists;
    assert (entries - {h}).Keys == entries.Keys - {h};
  }

  lemma SetDrop(s: set<Hash>, h: Hash)
    ensures |s - {h}| <= |s|
  {
    assert s == (s - {h}) + (s * {h});
  }

  lemma Reduced(entries: map<Hash, Entry>, h: Hash, ttl: nat, capacity: nat)
    requires Bounded(entries, ttl, capacity)
    ensures Bounded(entries - {h}, ttl, capacity) && (h in entries ==> |entries - {h}| < |entries|)
    ensures |entries| <= capacity
  {
    hide PeerList, Members;
    MembersDrop(RetryExpiry, entries, h);
    SetDrop(Members(RetryExpiry, entries), h);
  }

  lemma KnownOk(x: Indices, entries: map<Hash, Entry>, last: nat, ttl: nat, capacity: nat, h: Hash)
    requires AllIndexed(x, entries, last) && Bounded(entries, ttl, capacity) && h in entries
    ensures PeerList(entries[h].peers) && entries[h].hash == h
  {
  }

  lemma BlankOk(event: Event, now: Instant)
    ensures PeerList(Blank(event, now).peers) && Blank(event, now).hash == event.hash
  {
  }

  /** Merge an event into an entry and restart a fresh entry's life. */
  method RefreshEntry(e: Entry, event: Event, ttl: nat) returns (r: Entry)
    requires PeerList(e.peers)
    ensures Refreshes(e, event, r, ttl) && r.hash == e.hash
  {
    hide PeerList, MergedPeers;
    var isNew;
    r, isNew := MergeCandidate(e, event);
    if !r.isRetry {
      r := r.(expiresAt := r.latestAt + ttl);
    }
  }

  lemma Renumbered(e: Entry, event: Event, r: Entry, ttl: nat, number: nat)
    requires Refreshes(e, event, r, ttl)
    ensures Refreshes(e, event, r.(number := number), ttl)
  {
  }

  lemma RefreshedFits(e: Entry, event: Event, r: Entry, ttl: nat)
    requires Refreshes(e, event, r, ttl) && PeerList(e.peers)
    ensures PeerList(r.peers) && r.isRetry == e.isRetry && (!r.isRetry ==> r.expiresAt == r.latestAt + ttl)
  {
  }

  lemma Replaced(before: map<Hash, Entry>, event: Event, e: Entry, ttl: nat, capacity: nat)
    requires event.hash in before && Bounded(before, ttl, capacity) && Refreshes(before[event.hash], event, e, ttl)
    ensures var after := (before - {event.hash})[event.hash := e];
      Bounded(after, ttl, capacity) && Others(before, after, event.hash)
  {
    var h := event.hash;
    RefreshedFits(before[h], event, e, ttl);
    hide PeerList, Refreshes;
    var after := (before - {h})[h := e];
    assert after.Keys == before.Keys;
    FittingReplaced(before, h, e, ttl);
    hide Fitting;
    SameRetries(before, h, e);
  }

  lemma FittingReplaced(before: map<Hash, Entry>, h: Hash, e: Entry, ttl: nat)
    requires Fitting(before, ttl) && PeerList(e.peers) && (!e.isRetry ==> e.expiresAt == e.latestAt + ttl)
    ensures Fitting((before - {h})[h := e], ttl)
  {
    hide PeerList;
  }

  lemma SameRetries(before: map<Hash, Entry>, h: Hash, e: Entry)
    requires h in before && e.isRetry == before[h].isRetry
    ensures Members(RetryExpiry, (before - {h})[h := e]) == Members(RetryExpiry, before)
  {
  }

  lemma Added(before: map<Hash, Entry>, event: Event, now: Instant, e: Entry, ttl: nat, capacity: nat)
    requires event.hash !in before && Bounded(before, ttl, capacity) && |before| < capacity
    requires Refreshes(Blank(event, now), event, e, ttl)
    ensures var after := before[event.hash := e];
      Bounded(after, ttl, capacity) && Others(before, after, event.hash)
  {
    BlankOk(event, now);
    RefreshedFits(Blank(event, now), event, e, ttl);
    assert !Blank(event, now).isRetry;
    hide PeerList, Refreshes, Blank, Members;
    MembersAdd(RetryExpiry, before, event.hash, e);
    OneMore(before, event.hash, e);
    OthersAdd(before, event.hash, e);
    hide Others;
  }

  lemma OthersAdd(before: map<Hash, Entry>, h: Hash, e: Entry)
    requires h !in before
    ensures Others(before, before[h := e], h)
  {
  }

  lemma AddedRetry(before: map<Hash, Entry>, e: Entry, ttl: nat, capacity: nat)
    requires e.hash !in before && e.isRetry && PeerList(e.peers)
    requires Bounded(before, ttl, capacity) && |before| < capacity
    requires |Members(RetryExpiry, before)| < RetryLimit(capacity)
    ensures Bounded(before[e.hash := e], ttl, capacity)
  {
    hide PeerList, Members;
    MembersAdd(RetryExpiry, before, e.hash, e);
    OneMore(before, e.hash, e);
  }

  lemma PressureSets(entries: map<Hash, Entry>)
    ensures |Members(RetryExpiry, entries)| <= |entries|
    ensures |Pressing(entries)|
         == |entries| - |Members(RetryExpiry, entries)| + |Members(ReadyRetry, entries)|
  {
    var retries, due := Members(RetryExpiry, entries), Members(ReadyRetry, entries);
    var others := entries.Keys - retries;
    var pressure := Pressing(entries);
    assert entries.Keys == others + retries;
    assert pressure == others + due && others !! due;
  }

  // ---------- readiness, expiry and the 3:1 rule ----------

  /** The queue with every entry that is due marked ready. */
  ghost function Promoted(entries: map<Hash, Entry>, now: Instant): map<Hash, Entry> {
    map h | h in entries :: if entries[h].readyAt <= now then entries[h].(ready := true) else entries[h]
  }

  /** The entries whose life has not ended. */
  ghost function Unexpired(entries: map<Hash, Entry>, now: Instant): map<Hash, Entry> {
    map h | h in entries && now <= entries[h].expiresAt :: entries[h]
  }

  function Saturating(count: nat): nat {
    if count >= 255 then 255 else count + 1
  }

  /** What a pop takes and how it moves the count of fresh jobs since the last retry: a due retry, the one due
      first, when there is one and it is its turn or nothing fresh is ready; else the fresh hash seen last. */
  ghost predicate Popped(entries: map<Hash, Entry>, streak: nat, r: Option<Entry>, after: nat) {
    var retries, others := Members(ReadyRetry, entries), Members(ReadyFresh, entries);
    if retries != {} && (streak >= 3 || others == {}) then
      && after == 0 && r.Some? && r.value.hash in retries && r.value == entries[r.value.hash]
      && (forall g :: g in retries ==> !StampLess(KeyOf(ReadyRetry, entries[g]), KeyOf(ReadyRetry, r.value)))
    else
      && after == Saturating(streak) && (r.Some? <==> others != {})
      && (r.Some? ==> r.value.hash in others && r.value == entries[r.value.hash])
      && (r.Some? ==> forall g :: g in others ==> !StampLess(KeyOf(ReadyFresh, r.value), KeyOf(ReadyFresh, entries[g])))
  }

  lemma FirstIn(m: map<Stamp, Hash>, k: Stamp)
    requires IsFirst(m, k)
    ensures k in m
  {
  }

  lemma Shrinks(m: map<Stamp, Hash>, k: Stamp)
    requires k in m
    ensures |m - {k}| < |m|
  {
    assert (m - {k}).Keys == m.Keys - {k};
  }

  /** An index after one entry is replaced by another with the same number. */
  lemma Relisted(m: map<Stamp, Hash>, lane: Lane, entries: map<Hash, Entry>, h: Hash, e: Entry, last: nat)
    requires Indexes(m, lane, entries) && Numbered(entries, last) && h in entries
    requires e.hash == h && e.number == entries[h].number
    ensures Indexes(Listing(m - {KeyOf(lane, entries[h])}, lane, e), lane, entries[h := e])
  {
    hide Indexes, KeyOf, Lists;
    IndexRemove(m, lane, entries, h, last);
    IndexInsert(m - {KeyOf(lane, entries[h])}, lane, entries - {h}, e);
    assert (entries - {h})[h := e] == entries[h := e];
  }

  /** Marking an entry ready leaves alone the indexes that do not look at readiness. */
  lemma KeptListed(m: map<Stamp, Hash>, lane: Lane, entries: map<Hash, Entry>, h: Hash, last: nat)
    requires Indexes(m, lane, entries) && Numbered(entries, last) && h in entries
    requires lane.Expiry? || lane.RetryExpiry?
    ensures Indexes(m, lane, entries[h := entries[h].(ready := true)])
  {
  }

  lemma NewlyListed(m: map<Stamp, Hash>, lane: Lane, entries: map<Hash, Entry>, h: Hash, last: nat)
    requires Indexes(m, lane, entries) && Numbered(entries, last) && h in entries && !entries[h].ready
    requires lane.ReadyFresh? || lane.ReadyRetry?
    ensures var e := entries[h].(ready := true);
      Indexes(Listing(m, lane, e), lane, entries[h := e])
  {
    Relisted(m, lane, entries, h, entries[h].(ready := true), last);
    assert KeyOf(lane, entries[h]) !in m;
    assert m - {KeyOf(lane, entries[h])} == m;
  }

  lemma WaitingEntry(x: Indices, entries: map<Hash, Entry>, last: nat, k: Stamp)
    requires AllIndexed(x, entries, last) && k in x.waiting
    ensures var h := x.waiting[k];
      && h in entries && entries[h].hash == h && !entries[h].ready
      && KeyOf(Waiting, entries[h]) == k && entries[h].readyAt == k.at
  {
  }

  lemma NumberedKept(entries: map<Hash, Entry>, h: Hash, last: nat)
    requires Numbered(entries, last) && h in entries
    ensures Numbered(entries[h := entries[h].(ready := true)], last)
  {
  }

  lemma PromoteOk(x: Indices, entries: map<Hash, Entry>, last: nat, k: Stamp)
    requires AllIndexed(x, entries, last) && k in x.waiting
    ensures var h := x.waiting[k];
      && h in entries
      && var e := entries[h].(ready := true);
      AllIndexed(x.(waiting := x.waiting - {k},
                    readyFresh := if e.isRetry then x.readyFresh else x.readyFresh[KeyOf(ReadyFresh, e) := h],
                    readyRetry := if e.isRetry then x.readyRetry[KeyOf(ReadyRetry, e) := h] else x.readyRetry),
                 entries[h := e], last)
  {
    WaitingEntry(x, entries, last, k);
    hide Indexes, KeyOf, Numbered;
    var h := x.waiting[k];
    var e := entries[h].(ready := true);
    NumberedKept(entries, h, last);
    KeptListed(x.expiry, Expiry, entries, h, last);
    KeptListed(x.retryExpiry, RetryExpiry, entries, h, last);
    Relisted(x.waiting, Waiting, entries, h, e, last);
    NewlyListed(x.readyFresh, ReadyFresh, entries, h, last);
    NewlyListed(x.readyRetry, ReadyRetry, entries, h, last);
  }

  lemma PromoteKeeps(entries: map<Hash, Entry>, h: Hash, now: Instant, ttl: nat, capacity: nat)
    requires h in entries && entries[h].readyAt <= now && Bounded(entries, ttl, capacity)
    ensures var after := entries[h := entries[h].(ready := true)];
      Promoted(after, now) == Promoted(entries, now) && Bounded(after, ttl, capacity)
  {
    hide PeerList;
    var after := entries[h := entries[h].(ready := true)];
    assert after.Keys == entries.Keys;
    assert Members(RetryExpiry, after) == Members(RetryExpiry, entries);
  }

  lemma AllPromoted(x: Indices, entries: map<Hash, Entry>, last: nat, now: Instant)
    requires AllIndexed(x, entries, last)
    requires x.waiting == map[] || exists k :: IsFirst(x.waiting, k) && k.at > now
    ensures Promoted(entries, now) == entries
  {
    forall h | h in entries && !entries[h].ready ensures entries[h].readyAt > now {
      assert KeyOf(Waiting, entries[h]) in x.waiting;
    }
  }

  lemma ExpiryEntry(x: Indices, entries: map<Hash, Entry>, last: nat, k: Stamp)
    requires AllIndexed(x, entries, last) && k in x.expiry
    ensures x.expiry[k] in entries && entries[x.expiry[k]].expiresAt == k.at
  {
  }

  lemma UnexpiredDrop(entries: map<Hash, Entry>, h: Hash, now: Instant)
    requires h in entries && entries[h].expiresAt < now
    ensures Unexpired(entries - {h}, now) == Unexpired(entries, now) && |entries - {h}| == |entries| - 1
  {
    assert (entries - {h}).Keys == entries.Keys - {h};
  }

  lemma NoneExpired(x: Indices, entries: map<Hash, Entry>, last: nat, now: Instant)
    requires AllIndexed(x, entries, last)
    requires x.expiry == map[] || exists k :: IsFirst(x.expiry, k) && k.at >= now
    ensures Unexpired(entries, now) == entries
  {
    forall h | h in entries ensures entries[h].expiresAt >= now {
      assert KeyOf(Expiry, entries[h]) in x.expiry;
    }
  }

  lemma EmptyLane(m: map<Stamp, Hash>, lane: Lane, entries: map<Hash, Entry>)
    requires Indexes(m, lane, entries)
    ensures m == map[] <==> Members(lane, entries) == {}
  {
    if m != map[] {
      var k :| k in m;
      assert m[k] in Members(lane, entries);
    }
  }

  lemma ReadyLanes(x: Indices, entries: map<Hash, Entry>, last: nat)
    requires AllIndexed(x, entries, last)
    ensures x.readyRetry == map[] <==> Members(ReadyRetry, entries) == {}
    ensures x.readyFresh == map[] <==> Members(ReadyFresh, entries) == {}
  {
    EmptyLane(x.readyRetry, ReadyRetry, entries);
    EmptyLane(x.readyFresh, ReadyFresh, entries);
  }

  lemma RetryPopped(x: Indices, entries: map<Hash, Entry>, last: nat, streak: nat, k: Stamp)
    requires AllIndexed(x, entries, last) && IsFirst(x.readyRetry, k)
    requires streak >= 3 || Members(ReadyFresh, entries) == {}
    ensures k in x.readyRetry && var h := x.readyRetry[k];
      h in entries && entries[h].hash == h && Popped(entries, streak, Some(entries[h]), 0)
  {
    var h := x.readyRetry[k];
    assert h in Members(ReadyRetry, entries);
    forall g | g in Members(ReadyRetry, entries)
      ensures !StampLess(KeyOf(ReadyRetry, entries[g]), KeyOf(ReadyRetry, entries[h])) {
      assert KeyOf(ReadyRetry, entries[g]) in x.readyRetry;
    }
  }

  lemma FreshPopped(x: Indices, entries: map<Hash, Entry>, last: nat, streak: nat, k: Stamp)
    requires AllIndexed(x, entries, last) && IsLast(x.readyFresh, k) && streak <= 255
    requires Members(ReadyRetry, entries) == {} || streak < 3
    ensures k in x.readyFresh && var h := x.readyFresh[k];
      && h in entries && entries[h].hash == h
      && Popped(entries, streak, Some(entries[h]), Saturating(streak))
  {
    var h := x.readyFresh[k];
    assert h in Members(ReadyFresh, entries);
    forall g | g in Members(ReadyFresh, entries)
      ensures !StampLess(KeyOf(ReadyFresh, entries[h]), KeyOf(ReadyFresh, entries[g])) {
      assert KeyOf(ReadyFresh, entries[g]) in x.readyFresh;
    }
  }

  lemma NoDrop(entries: map<Hash, Entry>)
    ensures entries - {} == entries
  {
  }

  lemma NonePopped(entries: map<Hash, Entry>, streak: nat)
    requires Members(ReadyFresh, entries) == {} && Members(ReadyRetry, entries) == {} && streak <= 255
    ensures Popped(entries, streak, None, Saturating(streak))
  {
  }

  /** Consecutive pops: what was queued at each, what it took, and the count before and after. Between two
      pops the queue may change in any way; only pops touch the count. */
  datatype Pop = Pop(entries: map<Hash, Entry>, streak: nat, taken: Option<Entry>)

  ghost function StreakAfter(pops: seq<Pop>, end: nat, i: nat): nat {
    if i + 1 < |pops| then pops[i + 1].streak else end
  }

  ghost predicate PopRun(pops: seq<Pop>, end: nat) {
    forall i :: 0 <= i < |pops| ==> Popped(pops[i].entries, pops[i].streak, pops[i].taken, StreakAfter(pops, end, i))
  }

  lemma PopMore(pops: seq<Pop>, entries: map<Hash, Entry>, streak: nat, taken: Option<Entry>, end: nat)
    requires PopRun(pops, streak) && Popped(entries, streak, taken, end)
    ensures PopRun(pops + [Pop(entries, streak, taken)], end)
  {
    hide Popped;
    var more := pops + [Pop(entries, streak, taken)];
    forall i | 0 <= i < |more|
      ensures Popped(more[i].entries, more[i].streak, more[i].taken, StreakAfter(more, end, i))
    {
      if i < |pops| {
        assert more[i] == pops[i] && StreakAfter(more, end, i) == StreakAfter(pops, streak, i);
      }
    }
  }

  ghost predicate RetryDue(p: Pop) {
    Members(ReadyRetry, p.entries) != {}
  }

  ghost predicate FreshReady(p: Pop) {
    Members(ReadyFresh, p.entries) != {}
  }

  ghost predicate TookRetry(p: Pop) {
    p.taken.Some? && p.taken.value.isRetry
  }

  /** One pop: a retry resets the count; anything else raises it, and with a retry due it is a fresh job. */
  lemma PopCounts(p: Pop, after: nat)
    requires Popped(p.entries, p.streak, p.taken, after)
    ensures TookRetry(p) <==> RetryDue(p) && (p.streak >= 3 || !FreshReady(p))
    ensures TookRetry(p) ==> after == 0
    ensures !TookRetry(p) ==> after == Saturating(p.streak)
    ensures RetryDue(p) || FreshReady(p) ==> p.taken.Some?
  {
  }

  lemma PopAt(pops: seq<Pop>, end: nat, i: nat)
    requires PopRun(pops, end) && i < |pops|
    ensures Popped(pops[i].entries, pops[i].streak, pops[i].taken, StreakAfter(pops, end, i))
  {
    hide Popped;
  }

  /** While a retry is due, any four consecutive pops include a retry. */
  lemma RetryWithinFour(pops: seq<Pop>, end: nat, i: nat)
    requires PopRun(pops, end) && i + 4 <= |pops|
    requires forall j :: i <= j < i + 4 ==> RetryDue(pops[j])
    ensures exists j :: i <= j < i + 4 && TookRetry(pops[j])
  {
    hide Popped, RetryDue, TookRetry, FreshReady, PopRun;
    var j := i;
    while j < i + 4 && !TookRetry(pops[j])
      invariant i <= j <= i + 4
      invariant forall t :: i <= t < j ==> !TookRetry(pops[t])
      invariant j < i + 4 ==> pops[j].streak >= j - i
      invariant j < i + 4
    {
      PopAt(pops, end, j);
      PopCounts(pops[j], StreakAfter(pops, end, j));
      j := j + 1;
    }
  }

  /** After a retry, while fresh work is ready, the next three pops are fresh. */
  lemma ThreeFreshAfterRetry(pops: seq<Pop>, end: nat, i: nat)
    requires PopRun(pops, end) && i + 4 <= |pops| && TookRetry(pops[i])
    requires forall j :: i < j < i + 4 ==> FreshReady(pops[j])
    ensures forall j :: i < j < i + 4 ==> pops[j].taken.Some? && !pops[j].taken.value.isRetry
  {
    hide Popped, RetryDue, FreshReady, PopRun;
    PopAt(pops, end, i);
    PopCounts(pops[i], pops[i + 1].streak);
    var j := i + 1;
    while j < i + 4
      invariant i < j <= i + 4
      invariant forall t :: i < t < j ==> pops[t].taken.Some? && !pops[t].taken.value.isRetry
      invariant j < i + 4 ==> pops[j].streak == j - i - 1
    {
      PopAt(pops, end, j);
      PopCounts(pops[j], StreakAfter(pops, end, j));
      j := j + 1;
    }
  }

  /** With both kinds of work always ready, pops follow a strict cycle: three fresh jobs, one retry. */
  lemma {:induction false} PopCycle(pops: seq<Pop>, end: nat, i: nat)
    requires PopRun(pops, end) && i < |pops| && pops[0].streak == 0
    requires forall j :: 0 <= j <= i ==> RetryDue(pops[j]) && FreshReady(pops[j])
    ensures pops[i].streak == i % 4 && (TookRetry(pops[i]) <==> i % 4 == 3)
  {
    hide Popped, RetryDue, FreshReady, PopRun, TookRetry;
    if i == 0 {
    } else {
      PopCycle(pops, end, i - 1);
      PopAt(pops, end, i - 1);
      PopCounts(pops[i - 1], pops[i].streak);
    }
    PopAt(pops, end, i);
    PopCounts(pops[i], StreakAfter(pops, end, i));
  }
}
