/** The immutable routing snapshot: a Patricia trie per address family and its nearest-node query. */
module RoutingSnapshots {
  import opened Nodes
  import opened Sorting
  import opened IdBits

  datatype PrefixBranch =
    | Leaf(start: nat, end: nat)
    | Split(bit: nat, zero: nat, one: nat)

  // ---------- orders ----------

  /** The order of the stored nodes: identifier, then address. */
  predicate IdLe(x: Node, y: Node) {
    LexCmp(x.id, y.id) == Less || (x.id == y.id && AddrLe(x.addr, y.addr))
  }

  /** The order of a query's answer: XOR distance to the target, then address. */
  predicate DistanceLe(target: NodeId, x: Node, y: Node) {
    Nearer(target, x.id, y.id) || (x.id == y.id && AddrLe(x.addr, y.addr))
  }

  function ById(): (Node, Node) -> bool {
    (x, y) => IdLe(x, y)
  }

  function ByDistance(target: NodeId): (Node, Node) -> bool {
    (x, y) => DistanceLe(target, x, y)
  }

  lemma AddrOrder()
    ensures forall x: Addr, y: Addr :: AddrLe(x, y) || AddrLe(y, x)
    ensures forall x: Addr, y: Addr :: AddrLe(x, y) && AddrLe(y, x) ==> x == y
    ensures forall x: Addr, y: Addr, z: Addr :: AddrLe(x, y) && AddrLe(y, z) ==> AddrLe(x, z)
  {
    forall x: Addr, y: Addr ensures (AddrLe(x, y) || AddrLe(y, x)) && (AddrLe(x, y) && AddrLe(y, x) ==> x == y) {
      AddrTotal(x, y);
    }
    forall x: Addr, y: Addr, z: Addr | AddrLe(x, y) && AddrLe(y, z) ensures AddrLe(x, z) {
      if x != y && y != z { AddrTransitive(x, y, z); }
    }
  }

  lemma LexOrder(a: seq<Byte>, b: seq<Byte>)
    ensures a == b || LexCmp(a, b) == Less || LexCmp(b, a) == Less
    ensures LexCmp(a, b) == Less ==> a != b && LexCmp(b, a) != Less
  {
    LexEqual(a, b);
    LexFlip(a, b);
    LexFlip(b, a);
  }

  lemma ByIdTotal()
    ensures TotalOrder(ById())
  {
    AddrOrder();
    var le := ById();
    forall x, y ensures (le(x, y) || le(y, x)) && (le(x, y) && le(y, x) ==> x == y) {
      LexOrder(x.id, y.id);
    }
    forall x, y, z | le(x, y) && le(y, z) ensures le(x, z) {
      if LexCmp(x.id, y.id) == Less && LexCmp(y.id, z.id) == Less { LexTransitive(x.id, y.id, z.id); }
    }
  }

  /** Ties in distance are equal identifiers, so the answer order is a total order on nodes. */
  lemma ByDistanceTotal(target: NodeId)
    ensures TotalOrder(ByDistance(target))
  {
    AddrOrder();
    var le := ByDistance(target);
    forall x, y ensures (le(x, y) || le(y, x)) && (le(x, y) && le(y, x) ==> x == y) {
      LexOrder(Xor(x.id, target), Xor(y.id, target));
      if Xor(x.id, target) == Xor(y.id, target) { XorInjective(x.id, y.id, target); }
    }
    forall x, y, z | le(x, y) && le(y, z) ensures le(x, z) {
      if Nearer(target, x.id, y.id) && Nearer(target, y.id, z.id) {
        LexTransitive(Xor(x.id, target), Xor(y.id, target), Xor(z.id, target));
      }
    }
  }

  /** Byte-by-byte comparison of two distances, stopping at the first difference. */
  method XorDistanceCmp(left: NodeId, right: NodeId, target: NodeId) returns (r: Ordering)
    ensures r == LexCmp(Xor(left, target), Xor(right, target))
    ensures r == Equal <==> left == right
    ensures var x, y := Number(Xor(left, target)), Number(Xor(right, target));
      r == if x < y then Less else if x == y then Equal else Greater
  {
    ghost var a, b := Xor(left, target), Xor(right, target);
    LexEqual(a, b);
    LexIsNumeric(a, b);
    if a == b { XorInjective(left, right, target); }
    hide Number;
    for index := 0 to 20
      invariant LexCmp(a, b) == LexCmp(a[index..], b[index..])
    {
      assert a[index..][1..] == a[index + 1..] && b[index..][1..] == b[index + 1..];
      if BitsLess(XorBits(left[index], target[index]), XorBits(right[index], target[index])) { return Less; }
      if BitsLess(XorBits(right[index], target[index]), XorBits(left[index], target[index])) { return Greater; }
    }
    return Equal;
  }

  // ---------- the trie ----------

  /** The identifiers of `nodes[start..end]` agree on every bit before `bit`. */
  ghost predicate Agree(nodes: seq<Node>, start: nat, end: nat, bit: nat)
    requires start <= end <= |nodes| && bit <= 160
  {
    forall i, j :: start <= i < end && start <= j < end ==> SamePrefix(nodes[i].id, nodes[j].id, bit)
  }

  /** All identifiers of `nodes[start..mid]` have bit `bit` clear, those of `nodes[mid..end]` have it
      set, and all of them agree on the bits before it. */
  ghost predicate SplitsAt(nodes: seq<Node>, start: nat, mid: nat, end: nat, bit: nat)
    requires start <= mid <= end <= |nodes|
  {
    && bit < 160
    && (forall i :: start <= i < end ==> (Bit(nodes[i].id, bit) <==> mid <= i))
    && Agree(nodes, start, end, bit)
  }

  /** The shape that a branch index stands for. */
  datatype Tree =
    | Same(start: nat, end: nat)
    | Fork(bit: nat, mid: nat, zero: Tree, one: Tree)

  /** `t` is a Patricia trie of `nodes[start..end]` whose forks are at bit `depth` or later. */
  ghost predicate Trie(nodes: seq<Node>, t: Tree, start: nat, end: nat, depth: nat)
    decreases t
  {
    && start < end <= |nodes|
    && depth <= 160
    && match t
       case Same(s, e) =>
         s == start && e == end && forall i :: start <= i < end ==> nodes[i].id == nodes[start].id
       case Fork(bit, mid, zero, one) =>
         && depth <= bit < 160 && start < mid < end
         && SplitsAt(nodes, start, mid, end, bit)
         && Trie(nodes, zero, start, mid, bit + 1)
         && Trie(nodes, one, mid, end, bit + 1)
  }

  /** The bounds of a trie, without what its forks say about the identifiers. */
  ghost predicate Shape(t: Tree, start: nat, end: nat, depth: nat) {
    && start < end
    && depth <= 160
    && match t
       case Same(s, e) => s == start && e == end
       case Fork(bit, mid, zero, one) =>
         depth <= bit < 160 && Shape(zero, start, mid, bit + 1) && Shape(one, mid, end, bit + 1)
  }

  lemma {:induction false} TrieShape(nodes: seq<Node>, t: Tree, start: nat, end: nat, depth: nat)
    requires Trie(nodes, t, start, end, depth)
    ensures Shape(t, start, end, depth)
    decreases t
  {
    if t.Fork? {
      TrieShape(nodes, t.zero, start, t.mid, t.bit + 1);
      TrieShape(nodes, t.one, t.mid, end, t.bit + 1);
    }
  }

  /** Branch `b` and the branches it points to are the tree `t`. */
  ghost predicate Encodes(branches: seq<PrefixBranch>, b: nat, t: Tree)
    decreases t
  {
    && b < |branches|
    && match t
       case Same(start, end) => branches[b] == Leaf(start, end)
       case Fork(bit, _, zero, one) =>
         && branches[b].Split? && branches[b].bit == bit
         && Encodes(branches, branches[b].zero, zero)
         && Encodes(branches, branches[b].one, one)
  }

  /** Growing the branch list keeps every tree already in it. */
  lemma {:induction false} EncodesExtends(branches: seq<PrefixBranch>, more: seq<PrefixBranch>, b: nat, t: Tree)
    requires Encodes(branches, b, t)
    ensures Encodes(branches + more, b, t)
    decreases t
  {
    if t.Fork? {
      EncodesExtends(branches, more, branches[b].zero, t.zero);
      EncodesExtends(branches, more, branches[b].one, t.one);
    }
  }

  lemma ForkEncodes(some: seq<PrefixBranch>, all: seq<PrefixBranch>, bit: nat, mid: nat, zero: nat, z: Tree, one: nat,
                    o: Tree)
    requires some <= all && Encodes(some, zero, z) && Encodes(all, one, o)
    ensures Encodes(all + [Split(bit, zero, one)], |all|, Fork(bit, mid, z, o))
  {
    assert all == some + all[|some|..];
    EncodesExtends(some, all[|some|..], zero, z);
    EncodesExtends(all, [Split(bit, zero, one)], zero, z);
    EncodesExtends(all, [Split(bit, zero, one)], one, o);
  }

  /** The nodes below a tree, near side before far side. */
  ghost function NearFirst(nodes: seq<Node>, t: Tree, target: NodeId): seq<Node> {
    match t
    case Same(start, end) => if start <= end <= |nodes| then nodes[start..end] else []
    case Fork(bit, _, zero, one) =>
      var zeros, ones := NearFirst(nodes, zero, target), NearFirst(nodes, one, target);
      if bit < 160 && Bit(target, bit) then ones + zeros else zeros + ones
  }

  /** Near-before-far traversal is exactly sorting by distance. */
  lemma {:induction false} NearFirstSorts(nodes: seq<Node>, t: Tree, start: nat, end: nat, depth: nat, target: NodeId)
    requires Trie(nodes, t, start, end, depth)
    requires Sorted(ById(), nodes)
    ensures Sorted(ByDistance(target), NearFirst(nodes, t, target))
    ensures multiset(NearFirst(nodes, t, target)) == multiset(nodes[start..end])
    decreases t
  {
    match t
    case Same(_, _) =>
      LeafSorted(nodes, start, end, target);
    case Fork(bit, mid, zero, one) =>
      NearFirstSorts(nodes, zero, start, mid, bit + 1, target);
      NearFirstSorts(nodes, one, mid, end, bit + 1, target);
      SidesMerge(nodes, start, mid, end, bit, target,
                 NearFirst(nodes, zero, target), NearFirst(nodes, one, target));
  }

  /** Walking `t` near side first lists the nodes in the order of the XOR metric. */
  ghost predicate Answers(nodes: seq<Node>, t: Tree) {
    forall target :: NearFirst(nodes, t, target) == Sort(ByDistance(target), nodes)
  }

  lemma TrieAnswers(nodes: seq<Node>, t: Tree)
    requires Trie(nodes, t, 0, |nodes|, 0) && Sorted(ById(), nodes)
    ensures Answers(nodes, t)
  {
    forall target ensures NearFirst(nodes, t, target) == Sort(ByDistance(target), nodes) {
      NearFirstSorts(nodes, t, 0, |nodes|, 0, target);
      assert nodes[0..|nodes|] == nodes;
      ByDistanceTotal(target);
      SortUnique(ByDistance(target), nodes, NearFirst(nodes, t, target));
    }
  }

  lemma {:induction false} NearFirstNonempty(nodes: seq<Node>, t: Tree, start: nat, end: nat, depth: nat,
                                             target: NodeId)
    requires Shape(t, start, end, depth) && end <= |nodes|
    ensures NearFirst(nodes, t, target) != []
    decreases t
  {
    if t.Fork? { NearFirstNonempty(nodes, t.one, t.mid, end, t.bit + 1, target); }
  }

  lemma SidesMerge(nodes: seq<Node>, start: nat, mid: nat, end: nat, bit: nat, target: NodeId, zeros: seq<Node>,
                   ones: seq<Node>)
    requires start <= mid <= end <= |nodes| && SplitsAt(nodes, start, mid, end, bit)
    requires multiset(zeros) == multiset(nodes[start..mid]) && multiset(ones) == multiset(nodes[mid..end])
    requires Sorted(ByDistance(target), zeros) && Sorted(ByDistance(target), ones)
    ensures var merged := if Bit(target, bit) then ones + zeros else zeros + ones;
            Sorted(ByDistance(target), merged) && multiset(merged) == multiset(nodes[start..end])
  {
    assert bit < 160;
    hide Sorted, SplitsAt, Bit, DistanceLe;
    SidesOrdered(nodes, start, mid, end, bit, target);
    MultisetMember(zeros, nodes[start..mid]);
    MultisetMember(ones, nodes[mid..end]);
    assert nodes[start..end] == nodes[start..mid] + nodes[mid..end];
    if Bit(target, bit) {
      SortedConcat(ByDistance(target), ones, zeros);
    } else {
      SortedConcat(ByDistance(target), zeros, ones);
    }
  }

  lemma LeafSorted(nodes: seq<Node>, start: nat, end: nat, target: NodeId)
    requires start < end <= |nodes| && Sorted(ById(), nodes)
    requires forall i :: start <= i < end ==> nodes[i].id == nodes[start].id
    ensures Sorted(ByDistance(target), nodes[start..end])
  {
    var s := nodes[start..end];
    forall i, j | 0 <= i < j < |s| ensures ByDistance(target)(s[i], s[j]) {
      assert ById()(nodes[start + i], nodes[start + j]);
      LexOrder(s[i].id, s[j].id);
    }
  }

  /** Across a split, every node on the target's side is nearer than every node on the other. */
  lemma SidesOrdered(nodes: seq<Node>, start: nat, mid: nat, end: nat, bit: nat, target: NodeId)
    requires start <= mid <= end <= |nodes| && SplitsAt(nodes, start, mid, end, bit)
    ensures forall x, y :: x in nodes[start..mid] && y in nodes[mid..end] ==>
      if Bit(target, bit) then DistanceLe(target, y, x) else DistanceLe(target, x, y)
  {
    forall x, y | x in nodes[start..mid] && y in nodes[mid..end]
      ensures if Bit(target, bit) then DistanceLe(target, y, x) else DistanceLe(target, x, y)
    {
      var i :| start <= i < mid && nodes[i] == x;
      var j :| mid <= j < end && nodes[j] == y;
      assert SamePrefix(nodes[i].id, nodes[j].id, bit) && SamePrefix(nodes[j].id, nodes[i].id, bit);
      OrderAtBit(x.id, y.id, target, bit);
      OrderAtBit(y.id, x.id, target, bit);
    }
  }

  /** How many different identifiers a stretch of sorted nodes holds. */
  ghost function DistinctIds(nodes: seq<Node>, start: nat, end: nat): (n: nat)
    requires start < end <= |nodes|
    ensures n >= 1
    decreases end
  {
    if start + 1 == end then 1
    else DistinctIds(nodes, start, end - 1) + (if nodes[end - 2].id != nodes[end - 1].id then 1 else 0)
  }

  lemma {:induction false} DistinctSame(nodes: seq<Node>, start: nat, end: nat)
    requires start < end <= |nodes|
    requires forall i :: start <= i < end ==> nodes[i].id == nodes[start].id
    ensures DistinctIds(nodes, start, end) == 1
    decreases end
  {
    if start + 1 < end { DistinctSame(nodes, start, end - 1); }
  }

  lemma {:induction false} DistinctSum(nodes: seq<Node>, start: nat, mid: nat, end: nat)
    requires start < mid < end <= |nodes|
    requires nodes[mid - 1].id != nodes[mid].id
    ensures DistinctIds(nodes, start, end) == DistinctIds(nodes, start, mid) + DistinctIds(nodes, mid, end)
    decreases end
  {
    if mid + 1 < end { DistinctSum(nodes, start, mid, end - 1); }
  }

  /** The counter is the number of different identifiers. */
  lemma {:induction false} DistinctCounts(nodes: seq<Node>, end: nat)
    requires 0 < end <= |nodes| && Sorted(ById(), nodes)
    ensures DistinctIds(nodes, 0, end) == |IdsOf(nodes[..end])|
    decreases end
  {
    if end == 1 {
      assert IdsOf(nodes[..1]) == {nodes[0].id};
    } else {
      DistinctCounts(nodes, end - 1);
      IdsOfSnoc(nodes, end);
      LastIsNew(nodes, end);
    }
  }

  /** In order of identifiers, the last one is new exactly if it differs from the one before it. */
  lemma LastIsNew(nodes: seq<Node>, end: nat)
    requires 1 < end <= |nodes| && Sorted(ById(), nodes)
    ensures nodes[end - 1].id in IdsOf(nodes[..end - 1]) <==> nodes[end - 2].id == nodes[end - 1].id
  {
    if nodes[end - 2].id == nodes[end - 1].id {
      assert nodes[..end - 1][end - 2].id == nodes[end - 1].id;
    } else {
      forall i | 0 <= i < end - 1 ensures nodes[i].id != nodes[end - 1].id {
        NoReturn(nodes, i, end - 2, end - 1);
      }
    }
  }

  ghost function IdsOf(nodes: seq<Node>): set<NodeId> {
    set i | 0 <= i < |nodes| :: nodes[i].id
  }

  lemma IdsOfSnoc(nodes: seq<Node>, end: nat)
    requires 0 < end <= |nodes|
    ensures IdsOf(nodes[..end]) == IdsOf(nodes[..end - 1]) + {nodes[end - 1].id}
  {
    var before, all := IdsOf(nodes[..end - 1]), IdsOf(nodes[..end]);
    forall id | id in all ensures id in before + {nodes[end - 1].id} {
      var i :| 0 <= i < end && nodes[..end][i].id == id;
      assert i < end - 1 ==> nodes[..end - 1][i].id == id;
    }
    forall id | id in before ensures id in all {
      var i :| 0 <= i < end - 1 && nodes[..end - 1][i].id == id;
      assert nodes[..end][i].id == id;
    }
    assert nodes[..end][end - 1].id in all;
  }

  lemma NoReturn(nodes: seq<Node>, i: nat, j: nat, k: nat)
    requires Sorted(ById(), nodes) && i <= j < k < |nodes| && nodes[j].id != nodes[k].id
    ensures nodes[i].id != nodes[k].id
  {
    assert ById()(nodes[j], nodes[k]);
    if i < j {
      assert ById()(nodes[i], nodes[j]);
      LexOrder(nodes[i].id, nodes[j].id);
      LexOrder(nodes[j].id, nodes[k].id);
    }
  }

  /** Between two sorted neighbours of a stretch that first differ at `bit`, everything agrees before it. */
  lemma Between(nodes: seq<Node>, start: nat, i: nat, end: nat, bit: nat)
    requires start <= i < end <= |nodes| && Sorted(ById(), nodes)
    requires DifferAt(nodes[start].id, nodes[end - 1].id, bit)
    ensures SamePrefix(nodes[start].id, nodes[i].id, bit)
  {
    var a, x, z := nodes[start].id, nodes[i].id, nodes[end - 1].id;
    if x != a {
      var p := DifferSomewhere(a, x);
      assert ById()(nodes[start], nodes[i]);
      OrderAtBit(a, x, a, p);
      assert i < end - 1 ==> ById()(nodes[i], nodes[end - 1]);
      if p < bit {
        assert Bit(a, p) == Bit(z, p);
        assert DifferAt(x, z, p);
        OrderAtBit(x, z, a, p);
      }
    }
  }

  lemma StretchAgrees(nodes: seq<Node>, start: nat, end: nat, bit: nat)
    requires start < end <= |nodes| && Sorted(ById(), nodes)
    requires DifferAt(nodes[start].id, nodes[end - 1].id, bit)
    ensures Agree(nodes, start, end, bit)
  {
    forall i | start <= i < end ensures SamePrefix(nodes[start].id, nodes[i].id, bit) {
      Between(nodes, start, i, end, bit);
    }
  }

  /** Within a stretch that agrees before `bit`, bit `bit` goes from clear to set once. */
  lemma BitMonotone(nodes: seq<Node>, start: nat, end: nat, bit: nat)
    requires start < end <= |nodes| && Sorted(ById(), nodes) && bit < 160
    requires Agree(nodes, start, end, bit)
    ensures forall i, j :: start <= i < j < end && Bit(nodes[i].id, bit) ==> Bit(nodes[j].id, bit)
  {
    forall i, j | start <= i < j < end && Bit(nodes[i].id, bit) ensures Bit(nodes[j].id, bit) {
      assert ById()(nodes[i], nodes[j]) && SamePrefix(nodes[i].id, nodes[j].id, bit);
      if !Bit(nodes[j].id, bit) {
        OrderAtBit(nodes[i].id, nodes[j].id, nodes[i].id, bit);
      }
    }
  }

  /** What the builder knows of the bit it splits at. */
  lemma SplitBit(nodes: seq<Node>, start: nat, end: nat, depth: nat, bit: nat)
    requires start < end <= |nodes| && Sorted(ById(), nodes) && depth <= 160
    requires Agree(nodes, start, end, depth)
    requires DifferAt(nodes[start].id, nodes[end - 1].id, bit)
    ensures depth <= bit && Agree(nodes, start, end, bit)
    ensures !Bit(nodes[start].id, bit) && Bit(nodes[end - 1].id, bit)
    ensures forall i, j :: start <= i < j < end && Bit(nodes[i].id, bit) ==> Bit(nodes[j].id, bit)
  {
    assert SamePrefix(nodes[start].id, nodes[end - 1].id, depth);
    StretchAgrees(nodes, start, end, bit);
    BitMonotone(nodes, start, end, bit);
    OrderAtBit(nodes[start].id, nodes[end - 1].id, nodes[start].id, bit);
    assert ById()(nodes[start], nodes[end - 1]);
  }

  lemma SplitSides(nodes: seq<Node>, start: nat, mid: nat, end: nat, bit: nat)
    requires start < mid < end <= |nodes| && bit < 160 && Agree(nodes, start, end, bit)
    requires forall i :: start <= i < end ==> (Bit(nodes[i].id, bit) <==> mid <= i)
    ensures SplitsAt(nodes, start, mid, end, bit)
    ensures Agree(nodes, start, mid, bit + 1) && Agree(nodes, mid, end, bit + 1)
    ensures nodes[mid - 1].id != nodes[mid].id
  {
    forall i, j | start <= i < end && start <= j < end && (i < mid <==> j < mid)
      ensures SamePrefix(nodes[i].id, nodes[j].id, bit + 1)
    {
      assert SamePrefix(nodes[i].id, nodes[j].id, bit);
    }
    assert !Bit(nodes[mid - 1].id, bit) && Bit(nodes[mid].id, bit);
  }

  /** One trie over sorted nodes. */
  class PrefixIndex {
    var nodes: seq<Node>
    var branches: seq<PrefixBranch>
    var root: Option<nat>
    ghost var tree: Tree

    /** The root, if any, spans all nodes, and walking it sorts them by distance to any target. */
    ghost predicate Valid()
      reads this
    {
      && (root.None? <==> nodes == [])
      && (root.Some? ==> Encodes(branches, root.value, tree) && Shape(tree, 0, |nodes|, 0) && Answers(nodes, tree))
    }

    /** Sort by identifier and address, then build the trie with two branches per distinct
        identifier, less one. */
    constructor (input: seq<Node>)
      ensures Valid() && multiset(nodes) == multiset(input) && Sorted(ById(), nodes)
      ensures nodes != [] ==> Trie(nodes, tree, 0, |nodes|, 0)
      ensures nodes != [] ==> |branches| == 2 * |IdsOf(nodes)| - 1
    {
      var sorted := Sort(ById(), input);
      nodes, branches, root, tree := sorted, [], None, Same(0, 0);
      new;
      SortedById(input);
      hide Sorted, Sort, Encodes, Trie, Shape, Answers, IdsOf, ById;
      if nodes != [] {
        Plant();
      }
    }

    /** Build the trie over all nodes. */
    method Plant()
      requires nodes != [] && branches == [] && Sorted(ById(), nodes)
      modifies this`branches, this`root, this`tree
      ensures Valid() && Trie(nodes, tree, 0, |nodes|, 0) && |branches| == 2 * |IdsOf(nodes)| - 1
    {
      hide Sorted, Encodes, Trie, Shape, Answers, DistinctIds, IdsOf, Agree, ById;
      AgreeNone(nodes);
      var position;
      position, tree := Build(0, |nodes|, 0);
      root := Some(position);
      DistinctCounts(nodes, |nodes|);
      assert nodes[..|nodes|] == nodes;
      TrieShape(nodes, tree, 0, |nodes|, 0);
      TrieAnswers(nodes, tree);
    }

    /** The first byte at which two identifiers differ. */
    static method DifferingByte(first: NodeId, last: NodeId) returns (r: Option<nat>)
      ensures r.None? <==> first == last
      ensures r.Some? ==> r.value < 20 && first[..r.value] == last[..r.value] && first[r.value] != last[r.value]
    {
      for byte := 0 to 20
        invariant first[..byte] == last[..byte]
      {
        if first[byte] != last[byte] { return Some(byte); }
        assert first[..byte + 1] == first[..byte] + [first[byte]];
        assert last[..byte + 1] == last[..byte] + [last[byte]];
      }
      assert first == first[..20] && last == last[..20];
      return None;
    }

    /** The first position of `nodes[start..end]` whose bit is set. */
    method PartitionPoint(start: nat, end: nat, bit: nat) returns (middle: nat)
      requires start < end <= |nodes| && bit < 160
      requires forall i, j :: start <= i < j < end && Bit(nodes[i].id, bit) ==> Bit(nodes[j].id, bit)
      ensures start <= middle <= end
      ensures forall i :: start <= i < end ==> (Bit(nodes[i].id, bit) <==> middle <= i)
    {
      hide Bit;
      var low, high := start, end;
      while low < high
        invariant start <= low <= high <= end
        invariant forall i :: start <= i < low ==> !Bit(nodes[i].id, bit)
        invariant forall i :: high <= i < end ==> Bit(nodes[i].id, bit)
      {
        var probe := low + (high - low) / 2;
        if Bit(nodes[probe].id, bit) {
          high := probe;
        } else {
          low := probe + 1;
        }
      }
      middle := low;
    }

    /** Append the branches of `nodes[start..end]` bottom up; the last one appended is the root. */
    method Build(start: nat, end: nat, ghost depth: nat) returns (position: nat, ghost t: Tree)
      requires start < end <= |nodes| && depth <= 160 && Sorted(ById(), nodes)
      requires Agree(nodes, start, end, depth)
      modifies this`branches
      ensures old(branches) <= branches
      ensures Encodes(branches, position, t) && Trie(nodes, t, start, end, depth)
      ensures |branches| == |old(branches)| + 2 * DistinctIds(nodes, start, end) - 1
      decreases end - start
    {
      hide Encodes, Trie, DistinctIds, Agree, Bit, Sorted;
      var first, last := nodes[start].id, nodes[end - 1].id;
      var byte := DifferingByte(first, last);
      if byte.None? {
        ghost var same := Same(start, end);
        SameStretch(nodes, start, end, depth, branches);
        position, t := |branches|, same;
        branches := branches + [Leaf(start, end)];
        return;
      }
      var bit := byte.value * 8 + LeadingZeros(XorBits(first[byte.value], last[byte.value]));
      FirstDifference(first, last, byte.value);
      SplitBit(nodes, start, end, depth, bit);
      var middle := PartitionPoint(start, end, bit);
      SplitSides(nodes, start, middle, end, bit);
      var zero, z := Build(start, middle, bit + 1);
      ghost var afterZero := branches;
      var one, o := Build(middle, end, bit + 1);
      t := Fork(bit, middle, z, o);
      ForkEncodes(afterZero, branches, bit, middle, zero, z, one, o);
      ForkTrie(nodes, start, middle, end, depth, bit, z, o);
      DistinctSum(nodes, start, middle, end);
      position := |branches|;
      branches := branches + [Split(bit, zero, one)];
    }

    /** The `count` nearest nodes, appended in order of distance; visits at most 161 branches for
        each node it returns. */
    method AppendNearest(target: NodeId, count: nat, output: seq<Node>) returns (result: seq<Node>, visited: nat)
      requires Valid()
      ensures result == output + Take(Sort(ByDistance(target), nodes), count)
      ensures visited <= 161 * (|result| - |output|)
    {
      hide Encodes, Shape, NearFirst, Sort, ByDistance, Budget;
      SortLength(ByDistance(target), nodes);
      if root.None? {
        return output, 0;
      }
      var limit := |output| + if count < |nodes| then count else |nodes|;
      result, visited := Visit(root.value, target, limit, output, tree, 0, |nodes|, 0);
      BudgetIsProduct(|result| - |output|);
      assert NearFirst(nodes, tree, target) == Sort(ByDistance(target), nodes);
    }

    method Visit(branch: nat, target: NodeId, limit: nat, output: seq<Node>, ghost t: Tree, ghost start: nat,
                 ghost end: nat, ghost depth: nat)
      returns (result: seq<Node>, visited: nat)
      requires Encodes(branches, branch, t) && Shape(t, start, end, depth) && end <= |nodes|
      requires |output| <= limit
      ensures result == output + Take(NearFirst(nodes, t, target), limit - |output|)
      ensures |output| < limit ==> |output| < |result|
      ensures visited <= Budget(161 - depth, |result| - |output|)
      decreases t
    {
      hide NearFirst, Bit, NearSide, FarSide, Budget;
      if |output| >= limit {
        return output, 0;
      }
      NearFirstNonempty(nodes, t, start, end, depth, target);
      match branches[branch]
      case Leaf(s, e) =>
        var stop := if e < s + limit - |output| then e else s + limit - |output|;
        result, visited := output + nodes[s..stop], 1;
        VisitLeaf(nodes, t, target, limit, output, result);
        VisitBound(161 - depth, 0, 0, 0, |result| - |output|, 0);
      case Split(bit, zero, one) =>
        ghost var ns, ne, fs, fe := ForkSides(branches, branch, t, start, end, depth, target);
        var near, far := zero, one;
        if Bit(target, bit) { near, far := one, zero; }
        var filled, n := Visit(near, target, limit, output, NearSide(t, target), ns, ne, bit + 1);
        var f;
        result, f := Visit(far, target, limit, filled, FarSide(t, target), fs, fe, bit + 1);
        visited := 1 + n + f;
        VisitFork(nodes, t, target, limit, output, filled, result);
        VisitBound(161 - depth, 160 - bit, n, f, |filled| - |output|, |result| - |filled|);
    }
  }

  lemma VisitLeaf(nodes: seq<Node>, t: Tree, target: NodeId, limit: nat, output: seq<Node>, result: seq<Node>)
    requires t.Same? && t.start < t.end <= |nodes| && |output| < limit
    requires result == output + nodes[t.start..if t.end < t.start + limit - |output| then t.end
                                               else t.start + limit - |output|]
    ensures result == output + Take(NearFirst(nodes, t, target), limit - |output|)
    ensures |output| < |result|
  {
  }

  ghost function NearSide(t: Tree, target: NodeId): Tree
    requires t.Fork? && t.bit < 160
  {
    if Bit(target, t.bit) then t.one else t.zero
  }

  ghost function FarSide(t: Tree, target: NodeId): Tree
    requires t.Fork? && t.bit < 160
  {
    if Bit(target, t.bit) then t.zero else t.one
  }

  lemma ForkSides(branches: seq<PrefixBranch>, b: nat, t: Tree, start: nat, end: nat, depth: nat, target: NodeId)
    returns (ns: nat, ne: nat, fs: nat, fe: nat)
    requires Encodes(branches, b, t) && Shape(t, start, end, depth) && t.Fork?
    ensures Encodes(branches, if Bit(target, t.bit) then branches[b].one else branches[b].zero, NearSide(t, target))
    ensures Encodes(branches, if Bit(target, t.bit) then branches[b].zero else branches[b].one, FarSide(t, target))
    ensures Shape(NearSide(t, target), ns, ne, t.bit + 1) && ne <= end
    ensures Shape(FarSide(t, target), fs, fe, t.bit + 1) && fe <= end
    ensures NearSide(t, target) < t && FarSide(t, target) < t
  {
    if Bit(target, t.bit) {
      ns, ne, fs, fe := t.mid, end, start, t.mid;
    } else {
      ns, ne, fs, fe := start, t.mid, t.mid, end;
    }
  }

  lemma VisitFork(nodes: seq<Node>, t: Tree, target: NodeId, limit: nat, output: seq<Node>, filled: seq<Node>,
                  result: seq<Node>)
    requires t.Fork? && t.bit < 160 && |output| <= limit && |filled| <= limit
    requires filled == output + Take(NearFirst(nodes, NearSide(t, target), target), limit - |output|)
    requires result == filled + Take(NearFirst(nodes, FarSide(t, target), target), limit - |filled|)
    ensures result == output + Take(NearFirst(nodes, t, target), limit - |output|)
  {
    TakeConcat(output, NearFirst(nodes, NearSide(t, target), target), NearFirst(nodes, FarSide(t, target), target),
               limit);
  }

  /** `height` branches for each of `got` nodes. */
  ghost function Budget(height: nat, got: nat): nat
    decreases got
  {
    if got == 0 then 0 else height + Budget(height, got - 1)
  }

  lemma {:induction false} BudgetMonotone(low: nat, high: nat, got: nat)
    requires low < high
    ensures Budget(low, got) + got <= Budget(high, got)
    decreases got
  {
    if got == 0 {
    } else {
      BudgetMonotone(low, high, got - 1);
    }
  }

  lemma {:induction false} BudgetSum(height: nat, a: nat, b: nat)
    ensures Budget(height, a) + Budget(height, b) == Budget(height, a + b)
    decreases b
  {
    if b == 0 {
    } else {
      BudgetSum(height, a, b - 1);
    }
  }

  lemma {:induction false} BudgetIsProduct(got: nat)
    ensures Budget(161, got) == 161 * got
  {
    if got == 0 {
    } else {
      BudgetIsProduct(got - 1);
    }
  }

  lemma VisitBound(height: nat, below: nat, n: nat, f: nat, gotNear: nat, gotFar: nat)
    requires below < height && 1 <= gotNear
    requires n <= Budget(below, gotNear) && f <= Budget(below, gotFar)
    ensures 1 + n + f <= Budget(height, gotNear + gotFar)
  {
    BudgetSum(below, gotNear, gotFar);
    BudgetMonotone(below, height, gotNear + gotFar);
  }

  /** A stretch of equal identifiers is a leaf. */
  lemma SameStretch(nodes: seq<Node>, start: nat, end: nat, depth: nat, branches: seq<PrefixBranch>)
    requires start < end <= |nodes| && depth <= 160 && Sorted(ById(), nodes) && nodes[start].id == nodes[end - 1].id
    ensures Trie(nodes, Same(start, end), start, end, depth) && DistinctIds(nodes, start, end) == 1
    ensures Encodes(branches + [Leaf(start, end)], |branches|, Same(start, end))
  {
    SameEnds(nodes, start, end);
    DistinctSame(nodes, start, end);
  }

  lemma ForkTrie(nodes: seq<Node>, start: nat, mid: nat, end: nat, depth: nat, bit: nat, z: Tree, o: Tree)
    requires start < mid < end <= |nodes| && depth <= bit < 160 && SplitsAt(nodes, start, mid, end, bit)
    requires Trie(nodes, z, start, mid, bit + 1) && Trie(nodes, o, mid, end, bit + 1)
    ensures Trie(nodes, Fork(bit, mid, z, o), start, end, depth)
  {
  }

  lemma SortedById(input: seq<Node>)
    ensures Sorted(ById(), Sort(ById(), input)) && multiset(Sort(ById(), input)) == multiset(input)
  {
    ByIdTotal();
    SortSorted(ById(), input);
    SortPermutes(ById(), input);
  }

  lemma AgreeNone(nodes: seq<Node>)
    ensures Agree(nodes, 0, |nodes|, 0)
  {
  }

  lemma SameEnds(nodes: seq<Node>, start: nat, end: nat)
    requires start < end <= |nodes| && Sorted(ById(), nodes) && nodes[start].id == nodes[end - 1].id
    ensures forall i :: start <= i < end ==> nodes[i].id == nodes[start].id
  {
    forall i | start <= i < end ensures nodes[i].id == nodes[start].id {
      if start < i < end - 1 {
        assert ById()(nodes[start], nodes[i]) && ById()(nodes[i], nodes[end - 1]);
        LexOrder(nodes[start].id, nodes[i].id);
      }
    }
  }

  // ---------- the snapshot ----------

  predicate Serves(ipv6: Option<bool>, n: Node) {
    ipv6 == None || ipv6 == Some(n.addr.V6?)
  }

  /** How often a node is there for those who ask for the family. */
  ghost function Served(members: seq<Node>, ipv6: Option<bool>, n: Node): nat {
    if Serves(ipv6, n) then multiset(members)[n] else 0
  }

  lemma FamilyStep(n: Node, rest: seq<Node>, ipv6: Option<bool>)
    ensures multiset(OfFamily([n] + rest, ipv6)) == multiset(IfFamily(n, ipv6)) + multiset(OfFamily(rest, ipv6))
  {
    assert ([n] + rest)[1..] == rest;
    hide IfFamily;
  }

  lemma {:induction false} FamilyCount(nodes: seq<Node>, ipv6: Option<bool>, n: Node)
    ensures multiset(OfFamily(nodes, ipv6))[n] == Served(nodes, ipv6, n)
  {
    if nodes == [] {
    } else {
      FamilyCount(nodes[1..], ipv6, n);
      FamilyStep(nodes[0], nodes[1..], ipv6);
      OneServed(nodes[0], ipv6, n);
      assert nodes == [nodes[0]] + nodes[1..];
      hide OfFamily, IfFamily, Serves;
    }
  }

  lemma OneServed(m: Node, ipv6: Option<bool>, n: Node)
    ensures multiset(IfFamily(m, ipv6))[n] == Served([m], ipv6, n)
  {
  }

  lemma AllFamilies(nodes: seq<Node>)
    ensures OfFamily(nodes, None) == nodes
    ensures multiset(OfFamily(nodes, Some(false))) + multiset(OfFamily(nodes, Some(true))) == multiset(nodes)
  {
    AnyFamily(nodes);
    hide OfFamily;
    forall n ensures multiset(OfFamily(nodes, Some(false)))[n] + multiset(OfFamily(nodes, Some(true)))[n]
                  == multiset(nodes)[n] {
      FamilyCount(nodes, Some(false), n);
      FamilyCount(nodes, Some(true), n);
    }
  }

  lemma {:induction false} AnyFamily(nodes: seq<Node>)
    ensures OfFamily(nodes, None) == nodes
  {
    if nodes == [] {
    } else {
      AnyFamily(nodes[1..]);
    }
  }

  lemma {:induction false} OnlyFamily(nodes: seq<Node>, ipv6: bool)
    requires forall n :: n in nodes ==> n.addr.V6? == ipv6
    ensures OfFamily(nodes, Some(ipv6)) == nodes && OfFamily(nodes, Some(!ipv6)) == []
  {
    if nodes == [] {
    } else {
      OnlyFamily(nodes[1..], ipv6);
      assert nodes == [nodes[0]] + nodes[1..];
    }
  }

  lemma {:induction false} OfFamilySnoc(nodes: seq<Node>, n: Node, ipv6: Option<bool>)
    ensures OfFamily(nodes + [n], ipv6) == OfFamily(nodes, ipv6) + IfFamily(n, ipv6)
  {
    hide IfFamily;
    if nodes == [] {
      assert nodes + [n] == [n] && [n][1..] == [];
      assert IfFamily(n, ipv6) + [] == [] + IfFamily(n, ipv6);
    } else {
      assert (nodes + [n])[0] == nodes[0] && (nodes + [n])[1..] == nodes[1..] + [n];
      OfFamilySnoc(nodes[1..], n, ipv6);
      var first, rest, last := IfFamily(nodes[0], ipv6), OfFamily(nodes[1..], ipv6), IfFamily(n, ipv6);
      assert first + (rest + last) == (first + rest) + last;
    }
  }

  lemma SortSame(target: NodeId, a: seq<Node>, b: seq<Node>)
    requires multiset(a) == multiset(b)
    ensures Sort(ByDistance(target), a) == Sort(ByDistance(target), b)
  {
    ByDistanceTotal(target);
    SortSorted(ByDistance(target), b);
    SortPermutes(ByDistance(target), b);
    SortUnique(ByDistance(target), a, Sort(ByDistance(target), b));
  }

  lemma BothFamilies(target: NodeId, fours: seq<Node>, sixes: seq<Node>, members: seq<Node>, count: nat)
    requires multiset(fours) == multiset(OfFamily(members, Some(false)))
    requires multiset(sixes) == multiset(OfFamily(members, Some(true)))
    ensures Take(Sort(ByDistance(target), Take(Sort(ByDistance(target), fours), count)
                                        + Take(Sort(ByDistance(target), sixes), count)), count)
         == Take(Sort(ByDistance(target), OfFamily(members, None)), count)
  {
    ByDistanceTotal(target);
    TopOfUnion(ByDistance(target), fours, sixes, count);
    AllFamilies(members);
    assert multiset(fours + sixes) == multiset(members);
    SortSame(target, fours + sixes, members);
  }

  // ---------- what an answer is ----------

  /** The XOR distance of a node's identifier, as a number. */
  ghost function Distance(target: NodeId, n: Node): nat {
    Number(Xor(n.id, target))
  }

  /** A node comes no later than another in an answer: it is nearer, or just as near and its endpoint comes no later,
      IPv4 before IPv6 and lower numbers first. */
  ghost predicate NoLater(target: NodeId, x: Node, y: Node) {
    || Distance(target, x) < Distance(target, y)
    || (Distance(target, x) == Distance(target, y)
        && if x.addr.V4? == y.addr.V4? then EndpointNumber(x.addr) <= EndpointNumber(y.addr) else x.addr.V4?)
  }

  /** `nodes` are the `count` members of the family asked for that come first, in order; all of them if there are fewer.
      */
  ghost predicate NearestOf(nodes: seq<Node>, members: seq<Node>, target: NodeId, count: nat, ipv6: Option<bool>) {
    && |nodes| <= count && (forall i, j :: 0 <= i < j < |nodes| ==> NoLater(target, nodes[i], nodes[j]))
    && (forall n :: multiset(nodes)[n] <= Served(members, ipv6, n))
    && (forall m, n :: m in nodes && multiset(nodes)[n] < Served(members, ipv6, n) ==> NoLater(target, m, n))
    && (|nodes| < count ==> forall n :: multiset(nodes)[n] == Served(members, ipv6, n))
  }

  lemma OrderIsNumeric(target: NodeId, x: Node, y: Node)
    ensures DistanceLe(target, x, y) <==> NoLater(target, x, y)
  {
    LexIsNumeric(Xor(x.id, target), Xor(y.id, target));
    LexEqual(Xor(x.id, target), Xor(y.id, target));
    if Xor(x.id, target) == Xor(y.id, target) { XorInjective(x.id, y.id, target); }
    AddrIsNumeric(x.addr, y.addr);
    hide Xor, Number, EndpointNumber, AddrLess;
  }

  /** The first nodes of the sorted list are what an answer is. */
  lemma FirstAreNearest(members: seq<Node>, target: NodeId, count: nat, ipv6: Option<bool>)
    ensures NearestOf(Take(Sort(ByDistance(target), OfFamily(members, ipv6)), count), members, target, count, ipv6)
  {
    var le, all := ByDistance(target), OfFamily(members, ipv6);
    ByDistanceTotal(target);
    var nodes, rest := SortSplit(le, all, count);
    hide Sort, OfFamily, ByDistance, NearestOf;
    forall n ensures multiset(nodes)[n] + multiset(rest)[n] == Served(members, ipv6, n) {
      FamilyCount(members, ipv6, n);
    }
    SplitOrdered(target, nodes, rest);
    hide Sorted, TotalOrder;
    SplitNearest(nodes, rest, members, target, count, ipv6);
  }

  lemma SplitNearest(nodes: seq<Node>, rest: seq<Node>, members: seq<Node>, target: NodeId, count: nat,
                     ipv6: Option<bool>)
    requires forall n :: multiset(nodes)[n] + multiset(rest)[n] == Served(members, ipv6, n)
    requires forall i, j :: 0 <= i < j < |nodes| ==> NoLater(target, nodes[i], nodes[j])
    requires forall m, n :: m in nodes && n in multiset(rest) ==> NoLater(target, m, n)
    requires |nodes| <= count && (rest != [] ==> |nodes| == count)
    ensures NearestOf(nodes, members, target, count, ipv6)
  {
    hide NoLater, Serves;
    forall n | multiset(nodes)[n] < Served(members, ipv6, n) ensures n in multiset(rest) {
    }
    if rest == [] {
      assert forall n :: multiset(rest)[n] == 0;
    }
  }

  lemma SplitOrdered(target: NodeId, nodes: seq<Node>, rest: seq<Node>)
    requires Sorted(ByDistance(target), nodes + rest)
    ensures forall i, j :: 0 <= i < j < |nodes| ==> NoLater(target, nodes[i], nodes[j])
    ensures forall m, n :: m in nodes && n in multiset(rest) ==> NoLater(target, m, n)
  {
    hide NoLater, DistanceLe;
    var s := nodes + rest;
    forall i, j | 0 <= i < j < |s| ensures NoLater(target, s[i], s[j]) {
      assert ByDistance(target)(s[i], s[j]);
      OrderIsNumeric(target, s[i], s[j]);
    }
    assert forall i :: 0 <= i < |nodes| ==> s[i] == nodes[i];
    forall m, n | m in nodes && n in multiset(rest) ensures NoLater(target, m, n) {
      var i :| 0 <= i < |nodes| && nodes[i] == m;
      var j :| 0 <= j < |rest| && rest[j] == n;
      assert s[i] == m && s[|nodes| + j] == n;
    }
  }

  class RoutingSnapshot {
    const v4: PrefixIndex
    const v6: PrefixIndex
    /** The nodes the snapshot was made from, cut to its limit. */
    ghost const members: seq<Node>

    ghost predicate Valid()
      reads v4, v6
    {
      && v4.Valid() && v6.Valid()
      && multiset(v4.nodes) == multiset(OfFamily(members, Some(false)))
      && multiset(v6.nodes) == multiset(OfFamily(members, Some(true)))
    }

    /** Cut to the limit first, then partition by family, one index for each. */
    constructor (input: seq<Node>, limit: nat)
      ensures Valid() && members == Take(input, limit)
    {
      var nodes := Take(input, limit);
      var sixCount := CountV6(nodes);
      if sixCount == 0 {
        v4 := new PrefixIndex(nodes);
        v6 := new PrefixIndex([]);
        OnlyFamily(nodes, false);
      } else if sixCount == |nodes| {
        v4 := new PrefixIndex([]);
        v6 := new PrefixIndex(nodes);
        OnlyFamily(nodes, true);
      } else {
        var others, sixes := Partition(nodes);
        v4 := new PrefixIndex(others);
        v6 := new PrefixIndex(sixes);
      }
      members := nodes;
    }

    static method CountV6(nodes: seq<Node>) returns (count: nat)
      ensures count == 0 ==> forall n :: n in nodes ==> n.addr.V4?
      ensures count == |nodes| ==> forall n :: n in nodes ==> n.addr.V6?
    {
      count := 0;
      for i := 0 to |nodes|
        invariant count <= i
        invariant count == 0 ==> forall j :: 0 <= j < i ==> nodes[j].addr.V4?
        invariant count == i ==> forall j :: 0 <= j < i ==> nodes[j].addr.V6?
      {
        if nodes[i].addr.V6? { count := count + 1; }
      }
    }

    static method Partition(nodes: seq<Node>) returns (others: seq<Node>, sixes: seq<Node>)
      ensures others == OfFamily(nodes, Some(false)) && sixes == OfFamily(nodes, Some(true))
      ensures multiset(others) + multiset(sixes) == multiset(nodes)
    {
      others, sixes := [], [];
      for i := 0 to |nodes|
        invariant others == OfFamily(nodes[..i], Some(false)) && sixes == OfFamily(nodes[..i], Some(true))
      {
        assert nodes[..i + 1] == nodes[..i] + [nodes[i]];
        OfFamilySnoc(nodes[..i], nodes[i], Some(false));
        OfFamilySnoc(nodes[..i], nodes[i], Some(true));
        assert others + [] == others && sixes + [] == sixes;
        if nodes[i].addr.V6? {
          sixes := sixes + [nodes[i]];
        } else {
          others := others + [nodes[i]];
        }
      }
      assert nodes[..|nodes|] == nodes;
      AllFamilies(nodes);
    }

    /** Exactly the first `count` of the admitted members sorted by distance and address. */
    method ClosestNodes(target: NodeId, count: nat, ipv6: Option<bool>) returns (nodes: seq<Node>)
      requires Valid()
      ensures nodes == Take(Sort(ByDistance(target), OfFamily(members, ipv6)), count)
      ensures NearestOf(nodes, members, target, count, ipv6)
    {
      hide Sort, OfFamily, ByDistance, Encodes, Shape, Answers, NearestOf;
      FirstAreNearest(members, target, count, ipv6);
      if count == 0 {
        return [];
      }
      var visited;
      ghost var le := ByDistance(target);
      if ipv6.Some? {
        if ipv6.value {
          nodes, visited := v6.AppendNearest(target, count, []);
          assert ipv6 == Some(true) && nodes == Take(Sort(le, v6.nodes), count);
          SortSame(target, v6.nodes, OfFamily(members, ipv6));
        } else {
          nodes, visited := v4.AppendNearest(target, count, []);
          assert ipv6 == Some(false) && nodes == Take(Sort(le, v4.nodes), count);
          SortSame(target, v4.nodes, OfFamily(members, ipv6));
        }
        return;
      }
      nodes, visited := v4.AppendNearest(target, count, []);
      assert nodes == Take(Sort(le, v4.nodes), count);
      nodes, visited := v6.AppendNearest(target, count, nodes);
      nodes := Take(Sort(ByDistance(target), nodes), count);
      BothFamilies(target, v4.nodes, v6.nodes, members, count);
    }
  }
}
