/** Endpoints probed recently: one map entry and one heap entry each. A repeated probe only moves the
    map deadline; the heap key follows when it comes due. */
module RecentProbing {
  import opened Nodes

  datatype Probe = Probe(expiresAt: Instant, heapIndex: nat)

  datatype Check = Check(at: Instant, addr: Addr)

  /** The order of heap entries: time, then address. */
  predicate Before(x: Check, y: Check) {
    x.at < y.at || (x.at == y.at && AddrLess(x.addr, y.addr))
  }

  predicate NotAfter(x: Check, y: Check) {
    !Before(y, x)
  }

  lemma NotAfterTotal(x: Check, y: Check)
    ensures NotAfter(x, y) || NotAfter(y, x)
    ensures Before(x, y) ==> NotAfter(x, y)
  {
    AddrTotal(x.addr, y.addr);
    AddrTotal(y.addr, x.addr);
  }

  lemma NotAfterTransitive(x: Check, y: Check, z: Check)
    requires NotAfter(x, y) && NotAfter(y, z)
    ensures NotAfter(x, z)
  {
    AddrTotal(x.addr, y.addr);
    AddrTotal(y.addr, z.addr);
    AddrTotal(x.addr, z.addr);
    if AddrLess(z.addr, x.addr) {
      if AddrLess(x.addr, y.addr) { AddrTransitive(z.addr, x.addr, y.addr); }
      if AddrLess(y.addr, z.addr) { AddrTransitive(y.addr, z.addr, x.addr); }
    }
  }

  // ---------- the array heap ----------

  function Parent(i: nat): nat
    requires i > 0
  {
    (i - 1) / 2
  }

  ghost predicate Heap(e: seq<Check>) {
    forall i :: 0 < i < |e| ==> NotAfter(e[Parent(i)], e[i])
  }

  /** A heap but for the entry at `k`, which may be smaller than its parent. */
  ghost predicate HeapUp(e: seq<Check>, k: nat) {
    && k < |e|
    && (forall i :: 0 < i < |e| && i != k ==> NotAfter(e[Parent(i)], e[i]))
    && (forall i :: 0 < i < |e| && k > 0 && Parent(i) == k ==> NotAfter(e[Parent(k)], e[i]))
  }

  /** A heap but for the entry at `k`, which may be larger than its children. */
  ghost predicate HeapDown(e: seq<Check>, k: nat) {
    && k < |e|
    && (forall i :: 0 < i < |e| && Parent(i) != k ==> NotAfter(e[Parent(i)], e[i]))
    && (forall i :: 0 < i < |e| && k > 0 && Parent(i) == k ==> NotAfter(e[Parent(k)], e[i]))
  }

  function Swapped(e: seq<Check>, i: nat, j: nat): (s: seq<Check>)
    requires i < |e| && j < |e|
    ensures |s| == |e|
  {
    e[i := e[j]][j := e[i]]
  }

  lemma UpStep(e: seq<Check>, k: nat)
    requires HeapUp(e, k) && k > 0 && !NotAfter(e[Parent(k)], e[k])
    ensures HeapUp(Swapped(e, Parent(k), k), Parent(k))
  {
    hide Before;
    var p := Parent(k);
    var s := Swapped(e, p, k);
    NotAfterTotal(e[p], e[k]);
    forall i | 0 < i < |s| && i != p ensures NotAfter(s[Parent(i)], s[i]) {
      if Parent(i) == p && i != k { NotAfterTransitive(e[k], e[p], e[i]); }
    }
    forall i | 0 < i < |s| && p > 0 && Parent(i) == p ensures NotAfter(s[Parent(p)], s[i]) {
      if i != k { NotAfterTransitive(e[Parent(p)], e[p], e[i]); }
    }
  }

  /** The smaller child of `k`. */
  function Child(e: seq<Check>, k: nat): (c: nat)
    requires 2 * k + 1 < |e|
    ensures k < c < |e| && Parent(c) == k
  {
    if 2 * k + 2 < |e| && Before(e[2 * k + 2], e[2 * k + 1]) then 2 * k + 2 else 2 * k + 1
  }

  lemma ChildLeast(e: seq<Check>, k: nat)
    requires 2 * k + 1 < |e|
    ensures forall i :: 0 < i < |e| && Parent(i) == k ==> NotAfter(e[Child(e, k)], e[i])
  {
    forall i | 0 < i < |e| && Parent(i) == k ensures NotAfter(e[Child(e, k)], e[i]) {
      assert i == 2 * k + 1 || i == 2 * k + 2;
      NotAfterTotal(e[i], e[i]);
      if 2 * k + 2 < |e| { NotAfterTotal(e[2 * k + 2], e[2 * k + 1]); }
    }
  }

  lemma DownStep(e: seq<Check>, k: nat)
    requires HeapDown(e, k) && 2 * k + 1 < |e| && !NotAfter(e[k], e[Child(e, k)])
    ensures HeapDown(Swapped(e, k, Child(e, k)), Child(e, k))
  {
    ChildLeast(e, k);
    hide Before, Child;
    var c := Child(e, k);
    var s := Swapped(e, k, c);
    NotAfterTotal(e[k], e[c]);
    forall i | 0 < i < |s| && Parent(i) != c ensures NotAfter(s[Parent(i)], s[i]) {
    }
    forall i | 0 < i < |s| && c > 0 && Parent(i) == c ensures NotAfter(s[Parent(c)], s[i]) {
    }
  }

  lemma DownDone(e: seq<Check>, k: nat)
    requires HeapDown(e, k) && (2 * k + 1 >= |e| || NotAfter(e[k], e[Child(e, k)]))
    ensures Heap(e)
  {
    if 2 * k + 1 < |e| { ChildLeast(e, k); }
    hide Before, Child;
    forall i | 0 < i < |e| ensures NotAfter(e[Parent(i)], e[i]) {
      if Parent(i) == k { NotAfterTransitive(e[k], e[Child(e, k)], e[i]); }
    }
  }

  /** The head of a heap is its least entry. */
  lemma {:induction false} HeadLeast(e: seq<Check>, i: nat)
    requires Heap(e) && i < |e|
    ensures NotAfter(e[0], e[i])
  {
    if i == 0 {
      NotAfterTotal(e[0], e[0]);
    } else {
      HeadLeast(e, Parent(i));
      NotAfterTransitive(e[0], e[Parent(i)], e[i]);
    }
  }

  /** Filling the hole at `k` with the last entry leaves at most that entry out of order. */
  lemma SwapRemoveHeap(e: seq<Check>, k: nat)
    requires Heap(e) && k < |e| - 1
    ensures var s := e[k := e[|e| - 1]][..|e| - 1];
      if k > 0 && Before(s[k], s[Parent(k)]) then HeapUp(s, k) else HeapDown(s, k)
  {
    var s := e[k := e[|e| - 1]][..|e| - 1];
    hide Before;
    if k > 0 {
      NotAfterTotal(s[k], s[Parent(k)]);
      forall i | 0 < i < |s| && Parent(i) == k ensures NotAfter(s[Parent(k)], s[i]) {
        NotAfterTransitive(e[Parent(k)], e[k], e[i]);
      }
      if Before(s[k], s[Parent(k)]) {
        forall i | 0 < i < |s| && Parent(i) == k ensures NotAfter(s[k], s[i]) {
          NotAfterTransitive(s[k], s[Parent(k)], s[i]);
        }
      }
    }
  }

  // ---------- map and heap in step ----------

  /** Map entries and heap entries point at each other. */
  ghost predicate Linked(entries: map<Addr, Probe>, expiry: seq<Check>) {
    && (forall i :: 0 <= i < |expiry| ==> expiry[i].addr in entries && entries[expiry[i].addr].heapIndex == i)
    && (forall a :: a in entries ==> entries[a].heapIndex < |expiry| && expiry[entries[a].heapIndex].addr == a)
  }

  /** The deadline of every endpoint. */
  ghost function Deadlines(entries: map<Addr, Probe>): (m: map<Addr, Instant>) {
    map a | a in entries :: entries[a].expiresAt
  }

  /** The heap key of every endpoint. */
  ghost function Checks(entries: map<Addr, Probe>, expiry: seq<Check>): (m: map<Addr, Instant>)
    requires Linked(entries, expiry)
  {
    map a | a in entries :: expiry[entries[a].heapIndex].at
  }

  /** No heap key is after the deadline of its endpoint. */
  ghost predicate KeysBelow(checks: map<Addr, Instant>, deadlines: map<Addr, Instant>) {
    forall a :: a in checks ==> a in deadlines && checks[a] <= deadlines[a]
  }

  /** What a plain map from endpoints to deadlines would still hold at `now`. */
  ghost function Live(m: map<Addr, Instant>, now: Instant): (r: map<Addr, Instant>) {
    map a | a in m && m[a] > now :: m[a]
  }

  /** The deadlines once `addr` has been probed, `victim` having made room for it. */
  ghost function Probed(m: map<Addr, Instant>, victim: Option<Addr>, addr: Addr,
                        deadline: Instant): map<Addr, Instant> {
    (if victim.Some? then m - {victim.value} else m)[addr := deadline]
  }

  lemma SameSize(entries: map<Addr, Probe>, expiry: seq<Check>)
    requires Linked(entries, expiry)
    ensures |entries| == |expiry|
  {
    var addrs := set i | 0 <= i < |expiry| :: expiry[i].addr;
    assert addrs == entries.Keys by {
      forall a | a in entries ensures a in addrs {
        assert expiry[entries[a].heapIndex].addr == a;
      }
    }
    DistinctCount(expiry);
  }

  lemma {:induction false} DistinctCount(e: seq<Check>)
    requires forall i, j :: 0 <= i < j < |e| ==> e[i].addr != e[j].addr
    ensures |set i | 0 <= i < |e| :: e[i].addr| == |e|
  {
    if e == [] {
    } else {
      var n := |e| - 1;
      DistinctCount(e[..n]);
      LastEndpoint(e);
    }
  }

  lemma LastEndpoint(e: seq<Check>)
    requires e != []
    ensures var n := |e| - 1;
      (set i | 0 <= i < |e| :: e[i].addr) == (set i | 0 <= i < n :: e[..n][i].addr) + {e[n].addr}
  {
    var n := |e| - 1;
    var before, all := set i | 0 <= i < n :: e[..n][i].addr, set i | 0 <= i < |e| :: e[i].addr;
    forall a | a in all ensures a in before + {e[n].addr} {
      var i :| 0 <= i < |e| && e[i].addr == a;
      if i < n { assert e[..n][i].addr == a; }
    }
    forall a | a in before ensures a in all {
      var i :| 0 <= i < n && e[..n][i].addr == a;
      assert e[i].addr == a;
    }
  }

  /** The map after the endpoint at heap position `index` is gone and the last one took its place. */
  ghost function Without(before: map<Addr, Probe>, was: seq<Check>, index: nat): map<Addr, Probe>
    requires Linked(before, was) && index < |was|
  {
    var rest := before - {was[index].addr};
    var moved := was[|was| - 1].addr;
    if index < |was| - 1 then rest[moved := before[moved].(heapIndex := index)] else rest
  }

  function SwapRemoved(was: seq<Check>, index: nat): seq<Check>
    requires index < |was|
  {
    was[index := was[|was| - 1]][..|was| - 1]
  }

  lemma RemovedLinked(before: map<Addr, Probe>, was: seq<Check>, index: nat)
    requires Linked(before, was) && index < |was|
    ensures Linked(Without(before, was, index), SwapRemoved(was, index))
  {
    var entries, expiry := Without(before, was, index), SwapRemoved(was, index);
    forall i | 0 <= i < |expiry| ensures expiry[i].addr in entries && entries[expiry[i].addr].heapIndex == i {
      assert expiry[i] == if i == index then was[|was| - 1] else was[i];
    }
    forall a | a in entries ensures entries[a].heapIndex < |expiry| && expiry[entries[a].heapIndex].addr == a {
      assert was[before[a].heapIndex].addr == a;
    }
  }

  lemma RemovedViews(before: map<Addr, Probe>, was: seq<Check>, index: nat)
    requires Linked(before, was) && index < |was|
    ensures Linked(Without(before, was, index), SwapRemoved(was, index))
    ensures Deadlines(Without(before, was, index)) == Deadlines(before) - {was[index].addr}
    ensures Checks(Without(before, was, index), SwapRemoved(was, index)) == Checks(before, was) - {was[index].addr}
  {
    RemovedLinked(before, was, index);
    RemovedDeadlines(before, was, index);
    RemovedChecks(before, was, index);
  }

  lemma RemovedDeadlines(before: map<Addr, Probe>, was: seq<Check>, index: nat)
    requires Linked(before, was) && index < |was|
    ensures Deadlines(Without(before, was, index)) == Deadlines(before) - {was[index].addr}
  {
    assert was[|was| - 1].addr in before;
  }

  lemma RemovedChecks(before: map<Addr, Probe>, was: seq<Check>, index: nat)
    requires Linked(before, was) && index < |was| && Linked(Without(before, was, index), SwapRemoved(was, index))
    ensures Checks(Without(before, was, index), SwapRemoved(was, index)) == Checks(before, was) - {was[index].addr}
  {
    var entries, expiry := Without(before, was, index), SwapRemoved(was, index);
    forall a | a in entries ensures expiry[entries[a].heapIndex].at == was[before[a].heapIndex].at {
      assert was[before[a].heapIndex].addr == a;
    }
  }

  ghost function Redirected(entries: map<Addr, Probe>, expiry: seq<Check>, left: nat, right: nat): map<Addr, Probe>
    requires Linked(entries, expiry) && left < |expiry| && right < |expiry|
  {
    var l, r := expiry[left].addr, expiry[right].addr;
    var once := entries[r := entries[r].(heapIndex := left)];
    once[l := once[l].(heapIndex := right)]
  }

  lemma SwapLinked(entries: map<Addr, Probe>, expiry: seq<Check>, left: nat, right: nat)
    requires Linked(entries, expiry) && left < |expiry| && right < |expiry|
    ensures Linked(Redirected(entries, expiry, left, right), Swapped(expiry, left, right))
  {
    hide Before;
    var after, e := Redirected(entries, expiry, left, right), Swapped(expiry, left, right);
    forall a | a in after ensures after[a].heapIndex < |e| && e[after[a].heapIndex].addr == a {
      assert expiry[entries[a].heapIndex].addr == a;
    }
  }

  lemma SwapViews(entries: map<Addr, Probe>, expiry: seq<Check>, left: nat, right: nat)
    requires Linked(entries, expiry) && left < |expiry| && right < |expiry|
    ensures var after, e := Redirected(entries, expiry, left, right), Swapped(expiry, left, right);
      && Linked(after, e) && Deadlines(after) == Deadlines(entries) && Checks(after, e) == Checks(entries, expiry)
  {
    SwapLinked(entries, expiry, left, right);
    SwapDeadlines(entries, expiry, left, right);
    SwapChecks(entries, expiry, left, right);
  }

  lemma SwapDeadlines(entries: map<Addr, Probe>, expiry: seq<Check>, left: nat, right: nat)
    requires Linked(entries, expiry) && left < |expiry| && right < |expiry|
    ensures Deadlines(Redirected(entries, expiry, left, right)) == Deadlines(entries)
  {
  }

  lemma SwapChecks(entries: map<Addr, Probe>, expiry: seq<Check>, left: nat, right: nat)
    requires Linked(entries, expiry) && left < |expiry| && right < |expiry|
    requires Linked(Redirected(entries, expiry, left, right), Swapped(expiry, left, right))
    ensures Checks(Redirected(entries, expiry, left, right), Swapped(expiry, left, right)) == Checks(entries, expiry)
  {
    var after, e := Redirected(entries, expiry, left, right), Swapped(expiry, left, right);
    forall a | a in entries ensures e[after[a].heapIndex].at == expiry[entries[a].heapIndex].at {
      assert expiry[entries[a].heapIndex].addr == a;
    }
  }

  /** The last item's endpoint is on record, and is another one unless its item is the one in question. */
  lemma LastListed(entries: map<Addr, Probe>, expiry: seq<Check>, index: nat)
    requires Linked(entries, expiry) && index < |expiry|
    ensures expiry[|expiry| - 1].addr in entries
    ensures index < |expiry| - 1 ==> expiry[|expiry| - 1].addr != expiry[index].addr
  {
  }

  lemma RemovedKeys(entries: map<Addr, Probe>, expiry: seq<Check>, index: nat)
    requires Linked(entries, expiry) && index < |expiry| && KeysBelow(Checks(entries, expiry), Deadlines(entries))
    ensures var rest, e := Without(entries, expiry, index), SwapRemoved(expiry, index);
      && Linked(rest, e) && Deadlines(rest) == Deadlines(entries) - {expiry[index].addr}
      && Checks(rest, e) == Checks(entries, expiry) - {expiry[index].addr}
      && KeysBelow(Checks(rest, e), Deadlines(rest))
  {
    RemovedViews(entries, expiry, index);
    hide Linked, Checks, Deadlines, KeysBelow, Without, SwapRemoved;
    KeysBelowMinus(Checks(entries, expiry), Deadlines(entries), expiry[index].addr);
  }

  /** A heap whose item at `index` gave way to the last one can be restored by sifting that one up or down. */
  lemma RemovedHeap(expiry: seq<Check>, index: nat)
    requires Heap(expiry) && index < |expiry|
    ensures var e := SwapRemoved(expiry, index);
      if index == |e| then Heap(e)
      else if index > 0 && Before(e[index], e[Parent(index)]) then HeapUp(e, index) else HeapDown(e, index)
  {
    if index < |expiry| - 1 {
      SwapRemoveHeap(expiry, index);
    }
  }

  lemma KeysBelowMinus(checks: map<Addr, Instant>, deadlines: map<Addr, Instant>, a: Addr)
    requires KeysBelow(checks, deadlines)
    ensures KeysBelow(checks - {a}, deadlines - {a})
  {
  }

  lemma Refreshed(before: map<Addr, Probe>, expiry: seq<Check>, addr: Addr, expiresAt: Instant)
    requires Linked(before, expiry) && addr in before && before[addr].expiresAt <= expiresAt
    requires KeysBelow(Checks(before, expiry), Deadlines(before))
    ensures var entries := before[addr := before[addr].(expiresAt := expiresAt)];
      && Linked(entries, expiry) && Checks(entries, expiry) == Checks(before, expiry)
      && Deadlines(entries) == Deadlines(before)[addr := expiresAt]
      && KeysBelow(Checks(entries, expiry), Deadlines(entries))
  {
    var entries := before[addr := before[addr].(expiresAt := expiresAt)];
    forall a | a in Checks(entries, expiry) ensures Checks(entries, expiry)[a] <= Deadlines(entries)[a] {
      assert Checks(before, expiry)[a] <= Deadlines(before)[a];
    }
  }

  lemma Appended(before: map<Addr, Probe>, was: seq<Check>, addr: Addr, expiresAt: Instant)
    requires Linked(before, was) && Heap(was) && addr !in before
    requires KeysBelow(Checks(before, was), Deadlines(before))
    ensures var expiry := was + [Check(expiresAt, addr)];
      var entries := before[addr := Probe(expiresAt, |was|)];
      && Linked(entries, expiry) && HeapUp(expiry, |was|)
      && Deadlines(entries) == Deadlines(before)[addr := expiresAt]
      && KeysBelow(Checks(entries, expiry), Deadlines(entries))
  {
    hide Before;
    var expiry := was + [Check(expiresAt, addr)];
    var entries := before[addr := Probe(expiresAt, |was|)];
    forall a | a in Checks(entries, expiry) ensures Checks(entries, expiry)[a] <= Deadlines(entries)[a] {
      if a != addr { assert Checks(before, was)[a] <= Deadlines(before)[a]; }
    }
  }

  class RecentProbes {
    var entries: map<Addr, Probe>
    var expiry: seq<Check>
    const capacity: nat

    /** Heap order, exact back-pointers, no heap key after its deadline, and the size bound. */
    ghost predicate Valid()
      reads this
    {
      && Linked(entries, expiry) && Heap(expiry) && |expiry| <= capacity && capacity > 0
      && KeysBelow(Checks(entries, expiry), Deadlines(entries))
    }

    constructor (limit: nat)
      ensures Valid() && entries == map[] && capacity == (if limit == 0 then 1 else limit)
    {
      entries, expiry := map[], [];
      capacity := if limit == 0 then 1 else limit;
    }

    method Contains(addr: Addr, now: Instant) returns (r: bool)
      requires Valid()
      ensures r <==> addr in Live(Deadlines(entries), now)
    {
      r := addr in entries && entries[addr].expiresAt > now;
    }

    method Swap(left: nat, right: nat)
      requires Linked(entries, expiry) && left < |expiry| && right < |expiry|
      modifies this
      ensures expiry == Swapped(old(expiry), left, right)
      ensures Linked(entries, expiry) && Deadlines(entries) == old(Deadlines(entries))
      ensures Checks(entries, expiry) == old(Checks(entries, expiry))
    {
      SwapViews(entries, expiry, left, right);
      var l, r := expiry[left].addr, expiry[right].addr;
      expiry := Swapped(expiry, left, right);
      entries := entries[r := entries[r].(heapIndex := left)];
      entries := entries[l := entries[l].(heapIndex := right)];
    }

    method SiftUp(start: nat)
      requires Linked(entries, expiry) && HeapUp(expiry, start)
      modifies this
      ensures Linked(entries, expiry) && Heap(expiry) && |expiry| == |old(expiry)|
      ensures Deadlines(entries) == old(Deadlines(entries)) && Checks(entries, expiry) == old(Checks(entries, expiry))
    {
      hide Before, Swapped;
      var index: nat := start;
      while index > 0
        invariant Linked(entries, expiry) && HeapUp(expiry, index) && |expiry| == |old(expiry)|
        invariant Deadlines(entries) == old(Deadlines(entries))
        invariant Checks(entries, expiry) == old(Checks(entries, expiry))
      {
        var parent := Parent(index);
        if NotAfter(expiry[parent], expiry[index]) {
          break;
        }
        UpStep(expiry, index);
        Swap(parent, index);
        index := parent;
      }
    }

    method SiftDown(start: nat)
      requires Linked(entries, expiry) && HeapDown(expiry, start)
      modifies this
      ensures Linked(entries, expiry) && Heap(expiry) && |expiry| == |old(expiry)|
      ensures Deadlines(entries) == old(Deadlines(entries)) && Checks(entries, expiry) == old(Checks(entries, expiry))
    {
      hide Before, Swapped;
      var index: nat := start;
      while 2 * index + 1 < |expiry|
        invariant Linked(entries, expiry) && HeapDown(expiry, index) && |expiry| == |old(expiry)|
        invariant Deadlines(entries) == old(Deadlines(entries))
        invariant Checks(entries, expiry) == old(Checks(entries, expiry))
        decreases |expiry| - index
      {
        var child := Child(expiry, index);
        if NotAfter(expiry[index], expiry[child]) {
          break;
        }
        DownStep(expiry, index);
        Swap(index, child);
        index := child;
      }
      DownDone(expiry, index);
    }

    /** Take out the entry at heap position `index`. */
    method RemoveAt(index: nat)
      requires Valid() && index < |expiry|
      modifies this
      ensures Valid() && |expiry| == |old(expiry)| - 1
      ensures Deadlines(entries) == old(Deadlines(entries)) - {old(expiry[index].addr)}
      ensures Checks(entries, expiry) == old(Checks(entries, expiry)) - {old(expiry[index].addr)}
    {
      hide Linked, Heap, HeapUp, HeapDown, KeysBelow, Checks, Deadlines, Before;
      RemovedKeys(entries, expiry, index);
      RemovedHeap(expiry, index);
      TakeOut(index);
      if index < |expiry| {
        if index > 0 && Before(expiry[index], expiry[Parent(index)]) {
          SiftUp(index);
        } else {
          SiftDown(index);
        }
      }
    }

    /** Put the last item in the place of another, and forget the other's endpoint. */
    method TakeOut(index: nat)
      requires Linked(entries, expiry) && index < |expiry|
      modifies this
      ensures entries == Without(old(entries), old(expiry), index) && expiry == SwapRemoved(old(expiry), index)
    {
      LastListed(entries, expiry, index);
      hide Linked;
      var removed, last := expiry[index].addr, |expiry| - 1;
      expiry := expiry[index := expiry[last]][..last];
      entries := entries - {removed};
      if index < |expiry| {
        var moved := expiry[index].addr;
        entries := entries[moved := entries[moved].(heapIndex := index)];
      }
    }

    /** Insert or refresh. At capacity a new endpoint displaces the one with the least heap key. */
    method Record(addr: Addr, expiresAt: Instant) returns (ghost victim: Option<Addr>)
      requires Valid() && (addr in entries ==> entries[addr].expiresAt <= expiresAt)
      modifies this
      ensures Valid()
      ensures victim.Some? <==> addr !in old(entries) && |old(entries)| == capacity
      ensures victim.Some? ==>
        && victim.value in old(entries)
        && (forall a :: a in old(entries) ==>
             old(Checks(entries, expiry))[victim.value] <= old(Checks(entries, expiry))[a])
      ensures Deadlines(entries) == Probed(old(Deadlines(entries)), victim, addr, expiresAt)
    {
      SameSize(entries, expiry);
      victim := None;
      if addr in entries {
        Refreshed(entries, expiry, addr, expiresAt);
        entries := entries[addr := entries[addr].(expiresAt := expiresAt)];
        return;
      }
      if |entries| == capacity {
        victim := Some(expiry[0].addr);
        forall a | a in entries ensures Checks(entries, expiry)[victim.value] <= Checks(entries, expiry)[a] {
          HeadLeast(expiry, entries[a].heapIndex);
        }
        RemoveAt(0);
        assert addr !in Deadlines(entries);
      }
      Append(addr, expiresAt);
    }

    method Append(addr: Addr, expiresAt: Instant)
      requires Valid() && addr !in entries && |expiry| < capacity
      modifies this
      ensures Valid() && Deadlines(entries) == old(Deadlines(entries))[addr := expiresAt]
    {
      var heapIndex := |expiry|;
      Appended(entries, expiry, addr, expiresAt);
      expiry := expiry + [Check(expiresAt, addr)];
      entries := entries[addr := Probe(expiresAt, heapIndex)];
      SiftUp(heapIndex);
    }

    method Remove(addr: Addr)
      requires Valid()
      modifies this
      ensures Valid() && Deadlines(entries) == old(Deadlines(entries)) - {addr}
    {
      if addr in entries {
        RemoveAt(entries[addr].heapIndex);
      }
    }

    method HasDue(now: Instant) returns (r: bool)
      requires Valid()
      ensures r <==> exists a :: a in entries && Checks(entries, expiry)[a] <= now
      ensures r <==> expiry != [] && expiry[0].at <= now
    {
      r := expiry != [] && expiry[0].at <= now;
      if r {
        assert Checks(entries, expiry)[expiry[0].addr] <= now;
      } else {
        forall a | a in entries ensures Checks(entries, expiry)[a] > now {
          HeadLeast(expiry, entries[a].heapIndex);
        }
      }
    }

    /** Check up to 256 due heap heads: drop the expired ones, move the refreshed ones to their
        deadline. No live endpoint is lost, and every check settles one due key. */
    method Expire(now: Instant) returns (removed: nat)
      requires Valid()
      modifies this
      ensures Valid() && Retained(old(Deadlines(entries)), Deadlines(entries), now)
      ensures removed == |old(entries)| - |entries|
      ensures Due(Checks(entries, expiry), now) <= old(Due(Checks(entries, expiry), now))
      ensures |Due(Checks(entries, expiry), now)| ==
        if old(|Due(Checks(entries, expiry), now)|) <= 256 then 0 else old(|Due(Checks(entries, expiry), now)|) - 256
    {
      removed := 0;
      for n := 0 to 256
        invariant Valid() && Retained(old(Deadlines(entries)), Deadlines(entries), now)
        invariant removed == |old(entries)| - |entries|
        invariant Due(Checks(entries, expiry), now) <= old(Due(Checks(entries, expiry), now))
        invariant |Due(Checks(entries, expiry), now)| + n == old(|Due(Checks(entries, expiry), now)|)
      {
        var due := HasDue(now);
        if !due {
          assert Due(Checks(entries, expiry), now) == {};
          break;
        }
        var gone := CheckHead(now);
        if gone { removed := removed + 1; }
      }
    }

    method CheckHead(now: Instant) returns (gone: bool)
      requires Valid() && expiry != [] && expiry[0].at <= now
      modifies this
      ensures Valid() && Retained(old(Deadlines(entries)), Deadlines(entries), now)
      ensures |entries| == |old(entries)| - if gone then 1 else 0
      ensures Due(Checks(entries, expiry), now) == old(Due(Checks(entries, expiry), now)) - {old(expiry[0].addr)}
      ensures old(expiry[0].addr) in old(Due(Checks(entries, expiry), now))
    {
      var addr := expiry[0].addr;
      var expiresAt := entries[addr].expiresAt;
      SameSize(entries, expiry);
      assert Checks(entries, expiry)[addr] == expiry[0].at;
      if expiresAt <= now {
        RemoveAt(0);
        SameSize(entries, expiry);
        return true;
      }
      Postponed(entries, expiry, expiresAt);
      expiry := expiry[0 := Check(expiresAt, addr)];
      SiftDown(0);
      SameSize(entries, expiry);
      return false;
    }
  }

  /** Moving the head's key to its deadline leaves at most the head out of order. */
  lemma Postponed(entries: map<Addr, Probe>, was: seq<Check>, at: Instant)
    requires Linked(entries, was) && Heap(was) && was != [] && was[0].at <= at
    requires KeysBelow(Checks(entries, was), Deadlines(entries)) && at == entries[was[0].addr].expiresAt
    ensures var expiry := was[0 := Check(at, was[0].addr)];
      && Linked(entries, expiry) && HeapDown(expiry, 0)
      && Checks(entries, expiry) == Checks(entries, was)[was[0].addr := at]
      && KeysBelow(Checks(entries, expiry), Deadlines(entries))
  {
    hide Before;
    var expiry := was[0 := Check(at, was[0].addr)];
    forall i | 0 < i < |expiry| && Parent(i) != 0 ensures NotAfter(expiry[Parent(i)], expiry[i]) {
      assert NotAfter(was[Parent(i)], was[i]);
    }
    forall a | a in Checks(entries, expiry) ensures Checks(entries, expiry)[a] <= Deadlines(entries)[a] {
      assert Checks(entries, was)[a] <= Deadlines(entries)[a];
    }
  }

  /** The endpoints whose heap key has come due. */
  ghost function Due(checks: map<Addr, Instant>, now: Instant): set<Addr> {
    set a | a in checks && checks[a] <= now
  }

  /** `after` is `before` without some endpoints that expired by `now`. */
  ghost predicate Retained(before: map<Addr, Instant>, after: map<Addr, Instant>, now: Instant) {
    && (forall a :: a in after ==> a in before && after[a] == before[a])
    && (forall a :: a in before && before[a] > now ==> a in after)
  }

  lemma RetainedLive(before: map<Addr, Instant>, after: map<Addr, Instant>, now: Instant)
    requires Retained(before, after, now)
    ensures Live(before, now) == Live(after, now)
  {
  }
}
