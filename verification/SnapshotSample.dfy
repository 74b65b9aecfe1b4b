/** The stratified sample that a snapshot publishes. All queues of slots share one link array: a slot is in
    at most one queue at a time, so its link can be reused when it moves to another. */
module SnapshotSampling {
  import opened Common
  import opened Nodes
  import opened Reservoirs

  /** A queue threaded through the link array. */
  datatype Queue = Queue(head: Option<nat>, tail: Option<nat>, len: nat)

  const EMPTY := Queue(None, None, 0)

  /** The links from the queue's head spell `contents`. */
  ghost predicate Spells(q: Queue, links: seq<Option<nat>>, contents: seq<nat>) {
    && q.len == |contents|
    && (forall i, j :: 0 <= i < j < |contents| ==> contents[i] != contents[j])
    && (forall i :: 0 <= i < |contents| ==> contents[i] < |links|)
    && (contents != [] ==> q.head == Some(contents[0]) && q.tail == Some(contents[|contents| - 1]))
    && (forall i :: 0 <= i < |contents| ==> Follows(links, contents, i))
  }

  ghost predicate Follows(links: seq<Option<nat>>, contents: seq<nat>, i: nat)
    requires i < |contents|
  {
    && contents[i] < |links|
    && links[contents[i]] == (if i + 1 < |contents| then Some(contents[i + 1]) else None)
  }

  method PushBack(q: Queue, slot: nat, links: seq<Option<nat>>, ghost contents: seq<nat>)
    returns (r: Queue, after: seq<Option<nat>>)
    requires Spells(q, links, contents) && slot < |links| && slot !in contents
    ensures |after| == |links| && Spells(r, after, contents + [slot])
    ensures forall t :: 0 <= t < |links| && t != slot && t !in contents ==> after[t] == links[t]
  {
    after := links[slot := None];
    r := q;
    if q.len == 0 {
      r := r.(head := Some(slot));
    } else {
      assert contents[|contents| - 1] in contents;
      after := after[q.tail.value := Some(slot)];
    }
    r := r.(tail := Some(slot), len := r.len + 1);
    PushSpells(q, links, contents, slot, r, after);
  }

  lemma PushSpells(q: Queue, links: seq<Option<nat>>, contents: seq<nat>, slot: nat, r: Queue, after: seq<Option<nat>>)
    requires Spells(q, links, contents) && slot < |links| && slot !in contents
    requires r == Queue(if contents == [] then Some(slot) else q.head, Some(slot), q.len + 1)
    requires after == (if contents == [] then links[slot := None]
                       else links[slot := None][contents[|contents| - 1] := Some(slot)])
    ensures Spells(r, after, contents + [slot])
  {
    var longer := contents + [slot];
    forall i | 0 <= i < |longer| ensures Follows(after, longer, i) {
      if i < |contents| { assert Follows(links, contents, i) && contents[i] != slot; }
    }
  }

  method PopFront(q: Queue, links: seq<Option<nat>>, ghost contents: seq<nat>) returns (slot: Option<nat>, r: Queue)
    requires Spells(q, links, contents)
    ensures contents == [] ==> slot == None && r == q
    ensures contents != [] ==> slot == Some(contents[0]) && Spells(r, links, contents[1..])
  {
    if q.len == 0 {
      return None, q;
    }
    var first := q.head.value;
    slot, r := Some(first), q.(head := links[first], len := q.len - 1);
    PopSpells(q, links, contents);
  }

  lemma PopSpells(q: Queue, links: seq<Option<nat>>, contents: seq<nat>)
    requires Spells(q, links, contents) && contents != []
    ensures Spells(Queue(links[contents[0]], q.tail, q.len - 1), links, contents[1..])
  {
    assert Follows(links, contents, 0);
    var rest := contents[1..];
    forall i | 0 <= i < |rest| ensures Follows(links, rest, i) {
      assert Follows(links, contents, i + 1);
    }
  }

  ghost function Rotated<T>(s: seq<T>, count: nat): seq<T>
    requires count <= |s|
  {
    s[count..] + s[..count]
  }

  /** Close the ring, walk `count` links, and open it again. */
  method RotateLeft(q: Queue, count: nat, links: seq<Option<nat>>, ghost contents: seq<nat>)
    returns (r: Queue, after: seq<Option<nat>>)
    requires Spells(q, links, contents) && count < |contents|
    ensures |after| == |links| && Spells(r, after, Rotated(contents, count))
    ensures forall t :: 0 <= t < |links| && t !in contents ==> after[t] == links[t]
  {
    if count == 0 {
      assert Rotated(contents, 0) == contents;
      return q, links;
    }
    assert Follows(links, contents, |contents| - 1);
    after := links[q.tail.value := q.head];
    r := q;
    for n := 0 to count
      invariant r.len == q.len && r.head == Some(contents[n])
      invariant n > 0 ==> r.tail == Some(contents[n - 1])
    {
      assert Follows(links, contents, n);
      assert after[contents[n]] == Some(contents[n + 1]);
      r := r.(tail := r.head, head := after[r.head.value]);
    }
    assert Follows(links, contents, count - 1);
    after := after[r.tail.value := None];
    RotateSpells(q, links, contents, count, r, after);
  }

  lemma RotateSpells(q: Queue, links: seq<Option<nat>>, contents: seq<nat>, count: nat, r: Queue,
                     after: seq<Option<nat>>)
    requires Spells(q, links, contents) && 0 < count < |contents|
    requires r == Queue(Some(contents[count]), Some(contents[count - 1]), q.len)
    requires after == links[contents[|contents| - 1] := Some(contents[0])][contents[count - 1] := None]
    ensures Spells(r, after, Rotated(contents, count))
  {
    var turned := Rotated(contents, count);
    forall i | 0 <= i < |turned| ensures Follows(after, turned, i) {
      var j := if i < |contents| - count then i + count else i - (|contents| - count);
      assert turned[i] == contents[j] && Follows(links, contents, j);
    }
  }

  // ---------- 512 queues on one link array ----------

  const PREFIXES: nat := 256

  /** Queues 0..256 hold the candidates of each identifier prefix, queues 256..512 those put off. */
  datatype Bank = Bank(queues: seq<Queue>, links: seq<Option<nat>>)

  /** No slot is in two queues. */
  ghost predicate Apart(contents: seq<seq<nat>>) {
    forall p, q, x :: 0 <= p < q < |contents| && x in contents[p] ==> x !in contents[q]
  }

  ghost predicate Spelled(b: Bank, contents: seq<seq<nat>>) {
    && |b.queues| == |contents| == 2 * PREFIXES
    && (forall p :: 0 <= p < |contents| ==> Spells(b.queues[p], b.links, contents[p]))
    && Apart(contents)
  }

  /** The slots in queues `from..to`. */
  ghost function Held(contents: seq<seq<nat>>, from: nat, to: nat): set<nat>
    requires from <= to <= |contents|
  {
    set p, i | from <= p < to && 0 <= i < |contents[p]| :: contents[p][i]
  }

  lemma HeldIn(contents: seq<seq<nat>>, from: nat, to: nat, x: nat)
    requires from <= to <= |contents|
    ensures x in Held(contents, from, to) <==> exists p :: from <= p < to && x in contents[p]
  {
    if x in Held(contents, from, to) {
      var p, i :| from <= p < to && 0 <= i < |contents[p]| && contents[p][i] == x;
      assert x in contents[p];
    }
  }

  /** A queue whose slots keep their links keeps its spelling. */
  lemma SpellsFrame(q: Queue, links: seq<Option<nat>>, after: seq<Option<nat>>, contents: seq<nat>)
    requires Spells(q, links, contents) && |after| == |links|
    requires forall i :: 0 <= i < |contents| ==> after[contents[i]] == links[contents[i]]
    ensures Spells(q, after, contents)
  {
    forall i | 0 <= i < |contents| ensures Follows(after, contents, i) {
      assert Follows(links, contents, i);
    }
  }

  method BankPush(b: Bank, p: nat, slot: nat, ghost contents: seq<seq<nat>>) returns (r: Bank)
    requires Spelled(b, contents) && p < 2 * PREFIXES && slot < |b.links|
    requires forall q :: 0 <= q < |contents| ==> slot !in contents[q]
    ensures Spelled(r, contents[p := contents[p] + [slot]]) && |r.links| == |b.links|
  {
    var q, links := PushBack(b.queues[p], slot, b.links, contents[p]);
    r := Bank(b.queues[p := q], links);
    ghost var after := contents[p := contents[p] + [slot]];
    forall t | 0 <= t < |after| ensures Spells(r.queues[t], r.links, after[t]) {
      if t != p { OtherFrame(b, contents, p, t, slot, links); }
    }
  }

  lemma OtherFrame(b: Bank, contents: seq<seq<nat>>, p: nat, t: nat, slot: nat, links: seq<Option<nat>>)
    requires Spelled(b, contents) && p < |contents| && t < |contents| && t != p && slot !in contents[t]
    requires |links| == |b.links|
    requires forall x :: 0 <= x < |links| && x != slot && x !in contents[p] ==> links[x] == b.links[x]
    ensures Spells(b.queues[t], links, contents[t])
  {
    forall i | 0 <= i < |contents[t]| ensures links[contents[t][i]] == b.links[contents[t][i]] {
      var x := contents[t][i];
      assert x in contents[t];
      assert x !in contents[p];
      assert x != slot;
    }
    SpellsFrame(b.queues[t], b.links, links, contents[t]);
  }

  method BankPop(b: Bank, p: nat, ghost contents: seq<seq<nat>>) returns (slot: Option<nat>, r: Bank)
    requires Spelled(b, contents) && p < 2 * PREFIXES
    ensures |r.links| == |b.links|
    ensures contents[p] == [] ==> slot == None && r == b
    ensures contents[p] != [] ==> slot == Some(contents[p][0]) && contents[p][0] < |b.links| &&
                                  Spelled(r, contents[p := contents[p][1..]])
  {
    var q;
    slot, q := PopFront(b.queues[p], b.links, contents[p]);
    r := b.(queues := b.queues[p := q]);
    assert contents[p] == [] ==> r.queues == b.queues;
  }

  method BankRotate(b: Bank, p: nat, count: nat, ghost contents: seq<seq<nat>>) returns (r: Bank)
    requires Spelled(b, contents) && p < 2 * PREFIXES && count < |contents[p]|
    ensures Spelled(r, contents[p := Rotated(contents[p], count)]) && |r.links| == |b.links|
  {
    var q, links := RotateLeft(b.queues[p], count, b.links, contents[p]);
    r := Bank(b.queues[p := q], links);
    ghost var after := contents[p := Rotated(contents[p], count)];
    RotatedIn(contents[p], count);
    forall t | 0 <= t < |after| ensures Spells(r.queues[t], r.links, after[t]) {
      if t != p {
        if contents[t] != [] { RotateFrame(b, contents, p, t, links); }
      }
    }
  }

  lemma RotateFrame(b: Bank, contents: seq<seq<nat>>, p: nat, t: nat, links: seq<Option<nat>>)
    requires Spelled(b, contents) && p < |contents| && t < |contents| && t != p && contents[p] != []
    requires |links| == |b.links|
    requires forall x :: 0 <= x < |links| && x !in contents[p] ==> links[x] == b.links[x]
    ensures Spells(b.queues[t], links, contents[t])
  {
    assert contents[p][0] in contents[p];
    OtherFrame(b, contents, p, t, contents[p][0], links);
  }

  lemma RotatedIn<T>(s: seq<T>, count: nat)
    requires count <= |s|
    ensures forall x :: x in Rotated(s, count) <==> x in s
  {
    assert s == s[..count] + s[count..];
  }

  // ---------- what is sampled ----------

  /** The first octet of the identifier. */
  function PrefixOf(node: Node): (p: nat)
    ensures p < PREFIXES
  {
    ByteBound(node.id[0]);
    OctetValue(node.id[0])
  }

  /** Live and not backing off. */
  predicate Eligible(slots: Slots, now: Instant, s: int) {
    Occupied(slots, s) && slots[s].value.info.expiresAt > now && !Blocked(slots[s].value.info, now)
  }

  lemma EligibleOccupied(slots: Slots, now: Instant, s: int)
    requires Eligible(slots, now, s)
    ensures Occupied(slots, s)
  {
  }

  function NodeAt(slots: Slots, s: nat): Node
    requires Occupied(slots, s)
  {
    slots[s].value.info.node
  }

  /** The eligible slots below `n` whose identifiers start with `p`, in slot order. */
  ghost function Stratum(slots: Slots, now: Instant, p: nat, n: nat): seq<nat>
    requires n <= |slots|
  {
    if n == 0 then []
    else Stratum(slots, now, p, n - 1) +
         (if Eligible(slots, now, n - 1) && PrefixOf(NodeAt(slots, n - 1)) == p then [n - 1] else [])
  }

  lemma {:induction false} StratumIn(slots: Slots, now: Instant, p: nat, n: nat)
    requires n <= |slots|
    ensures forall x :: x in Stratum(slots, now, p, n) <==>
      0 <= x < n && Eligible(slots, now, x) && PrefixOf(NodeAt(slots, x)) == p
  {
    if n == 0 {
    } else {
      StratumIn(slots, now, p, n - 1);
    }
  }

  ghost function Strata(slots: Slots, now: Instant, n: nat): (c: seq<seq<nat>>)
    requires n <= |slots|
    ensures |c| == 2 * PREFIXES
  {
    seq(2 * PREFIXES, p requires 0 <= p < 2 * PREFIXES => if p < PREFIXES then Stratum(slots, now, p, n) else [])
  }

  /** Queue every eligible slot with its prefix. */
  method Gather(slots: Slots, now: Instant, links: seq<Option<nat>>) returns (b: Bank)
    requires |links| == |slots|
    ensures Spelled(b, Strata(slots, now, |slots|)) && |b.links| == |slots|
  {
    b := Bank(seq(2 * PREFIXES, _ => EMPTY), links);
    GatherNone(slots, now, b);
    hide Spelled, Strata, PrefixOf, Eligible;
    for slot := 0 to |slots|
      invariant Spelled(b, Strata(slots, now, slot)) && |b.links| == |slots|
    {
      ghost var contents := Strata(slots, now, slot);
      if Eligible(slots, now, slot) {
        EligibleOccupied(slots, now, slot);
        var p := PrefixOf(NodeAt(slots, slot));
        GatherStep(slots, now, slot);
        b := BankPush(b, p, slot, contents);
      } else {
        GatherSkip(slots, now, slot);
      }
    }
  }

  lemma GatherNone(slots: Slots, now: Instant, b: Bank)
    requires b.queues == seq(2 * PREFIXES, _ => EMPTY)
    ensures Spelled(b, Strata(slots, now, 0))
  {
    forall p | 0 <= p < 2 * PREFIXES ensures Spells(b.queues[p], b.links, Strata(slots, now, 0)[p]) {
      assert Strata(slots, now, 0)[p] == [];
    }
  }

  lemma GatherStep(slots: Slots, now: Instant, slot: nat)
    requires slot < |slots| && Eligible(slots, now, slot)
    ensures var contents := Strata(slots, now, slot);
      var p := PrefixOf(NodeAt(slots, slot));
      && (forall q :: 0 <= q < |contents| ==> slot !in contents[q])
      && Strata(slots, now, slot + 1) == contents[p := contents[p] + [slot]]
  {
    hide PrefixOf;
    var contents, more, p := Strata(slots, now, slot), Strata(slots, now, slot + 1), PrefixOf(NodeAt(slots, slot));
    forall q | 0 <= q < 2 * PREFIXES
      ensures slot !in contents[q] && more[q] == if q == p then contents[q] + [slot] else contents[q] {
      StratumIn(slots, now, q, slot);
    }
  }

  lemma GatherSkip(slots: Slots, now: Instant, slot: nat)
    requires slot < |slots| && !Eligible(slots, now, slot)
    ensures Strata(slots, now, slot + 1) == Strata(slots, now, slot)
  {
    hide PrefixOf;
    forall q | 0 <= q < 2 * PREFIXES ensures Strata(slots, now, slot + 1)[q] == Strata(slots, now, slot)[q] {
      if q < PREFIXES { assert Stratum(slots, now, q, slot + 1) == Stratum(slots, now, q, slot); }
    }
  }

  // ---------- the state of a sample in the making ----------

  /** Slots taken so far and slots still queued are the eligible ones, each exactly once, queued under
      their prefix. */
  ghost predicate Split(slots: Slots, now: Instant, contents: seq<seq<nat>>, picked: seq<nat>) {
    && |contents| == 2 * PREFIXES
    && (forall i, j :: 0 <= i < j < |picked| ==> picked[i] != picked[j])
    && (forall x :: x in picked ==> Eligible(slots, now, x) && Loose(contents, x))
    && (forall p, x :: 0 <= p < 2 * PREFIXES && x in contents[p] ==>
          Eligible(slots, now, x) && PrefixOf(NodeAt(slots, x)) == p % PREFIXES)
    && (forall x :: Eligible(slots, now, x) ==> x in picked || Queued(slots, contents, x))
  }

  ghost predicate Loose(contents: seq<seq<nat>>, x: nat) {
    forall p :: 0 <= p < |contents| ==> x !in contents[p]
  }

  ghost predicate Queued(slots: Slots, contents: seq<seq<nat>>, x: nat) {
    && |contents| == 2 * PREFIXES && Occupied(slots, x)
    && (x in contents[PrefixOf(NodeAt(slots, x))] || x in contents[PREFIXES + PrefixOf(NodeAt(slots, x))])
  }

  lemma SplitStart(slots: Slots, now: Instant)
    ensures Split(slots, now, Strata(slots, now, |slots|), [])
  {
    var contents := Strata(slots, now, |slots|);
    hide PrefixOf;
    forall p, x | 0 <= p < 2 * PREFIXES && x in contents[p]
      ensures Eligible(slots, now, x) && PrefixOf(NodeAt(slots, x)) == p % PREFIXES {
      StratumIn(slots, now, p, |slots|);
    }
    forall x | Eligible(slots, now, x) ensures Queued(slots, contents, x) {
      StratumIn(slots, now, PrefixOf(NodeAt(slots, x)), |slots|);
    }
  }

  lemma SplitSame(slots: Slots, now: Instant, contents: seq<seq<nat>>, after: seq<seq<nat>>, picked: seq<nat>)
    requires Split(slots, now, contents, picked) && |after| == |contents|
    requires forall p, x :: 0 <= p < |contents| ==> (x in after[p] <==> x in contents[p])
    ensures Split(slots, now, after, picked)
  {
    hide PrefixOf, Eligible;
    forall x | x in picked ensures Loose(after, x) {
      assert Loose(contents, x);
    }
    forall x | Eligible(slots, now, x) && x !in picked ensures Queued(slots, after, x) {
      assert Queued(slots, contents, x);
    }
  }

  /** Taking the head of a queue. */
  lemma SplitPick(slots: Slots, now: Instant, contents: seq<seq<nat>>, picked: seq<nat>, p: nat)
    requires Split(slots, now, contents, picked) && Apart(contents)
    requires p < 2 * PREFIXES && contents[p] != [] && NoRepeats(contents[p])
    ensures Split(slots, now, contents[p := contents[p][1..]], picked + [contents[p][0]])
  {
    hide PrefixOf, Eligible;
    var head, after := contents[p][0], contents[p := contents[p][1..]];
    var more := picked + [head];
    assert forall x :: x in more <==> x in picked || x == head;
    assert head in contents[p];
    TailIn(contents[p]);
    forall i | 0 <= i < |picked| ensures picked[i] != head {
      assert picked[i] in picked && Loose(contents, picked[i]);
    }
    forall x | x in more ensures Eligible(slots, now, x) && Loose(after, x) {
      if x in picked {
        assert Loose(contents, x);
      } else {
        assert x == head;
        forall q | 0 <= q < |after| ensures head !in after[q] {
          if q != p { assert head !in contents[q]; }
        }
      }
    }
    forall x | Eligible(slots, now, x) && x !in more ensures Queued(slots, after, x) {
      assert Queued(slots, contents, x);
    }
  }

  lemma TailIn(s: seq<nat>)
    requires s != [] && NoRepeats(s)
    ensures forall x :: x in s[1..] <==> x in s && x != s[0]
  {
    assert s == [s[0]] + s[1..];
  }

  /** Moving the head of a candidate queue to the end of its put-off queue. */
  lemma SplitDefer(slots: Slots, now: Instant, contents: seq<seq<nat>>, picked: seq<nat>, p: nat)
    requires Split(slots, now, contents, picked) && Apart(contents)
    requires p < PREFIXES && contents[p] != [] && NoRepeats(contents[p])
    ensures Split(slots, now, Deferred(contents, p), picked)
  {
    hide PrefixOf, Eligible;
    var head, after := contents[p][0], Deferred(contents, p);
    assert head in contents[p];
    TailIn(contents[p]);
    var put, was := after[PREFIXES + p], contents[PREFIXES + p];
    assert forall x :: x in put <==> x in was || x == head;
    forall x | x in picked ensures Loose(after, x) {
      assert Loose(contents, x);
      assert x != head;
    }
    forall x | Eligible(slots, now, x) && x !in picked ensures Queued(slots, after, x) {
      assert Queued(slots, contents, x);
    }
  }

  ghost function Deferred(contents: seq<seq<nat>>, p: nat): seq<seq<nat>>
    requires p < PREFIXES && |contents| == 2 * PREFIXES && contents[p] != []
  {
    contents[p := contents[p][1..]][PREFIXES + p := contents[PREFIXES + p] + [contents[p][0]]]
  }

  datatype Draft = Draft(bank: Bank, output: seq<Node>, subnets: set<Subnet>, selected: seq<nat>)

  ghost function SubnetsOf(nodes: seq<Node>): set<Subnet> {
    set i | 0 <= i < |nodes| :: SubnetOf(nodes[i].addr)
  }

  ghost function PrefixesOf(nodes: seq<Node>): set<nat> {
    set i | 0 <= i < |nodes| :: PrefixOf(nodes[i])
  }

  /** The output lists the nodes of the picked slots. */
  ghost predicate Lists(slots: Slots, output: seq<Node>, picked: seq<nat>) {
    && |output| == |picked|
    && forall i :: 0 <= i < |picked| ==> Occupied(slots, picked[i]) && output[i] == NodeAt(slots, picked[i])
  }

  ghost predicate Counts(selected: seq<nat>, output: seq<Node>) {
    |selected| == PREFIXES && forall p :: 0 <= p < PREFIXES ==> (selected[p] > 0 <==> p in PrefixesOf(output))
  }

  ghost predicate Ok(slots: Slots, now: Instant, d: Draft, contents: seq<seq<nat>>, picked: seq<nat>) {
    && Spelled(d.bank, contents) && |d.bank.links| == |slots|
    && Split(slots, now, contents, picked) && Lists(slots, d.output, picked)
    && d.subnets == SubnetsOf(d.output) && Counts(d.selected, d.output)
  }

  lemma OutputGrows(output: seq<Node>, node: Node)
    ensures SubnetsOf(output + [node]) == SubnetsOf(output) + {SubnetOf(node.addr)}
    ensures PrefixesOf(output + [node]) == PrefixesOf(output) + {PrefixOf(node)}
  {
    hide PrefixOf;
    var more := output + [node];
    forall i | 0 <= i < |output|
      ensures SubnetOf(output[i].addr) in SubnetsOf(more) && PrefixOf(output[i]) in PrefixesOf(more)
    {
      assert more[i] == output[i];
    }
    assert more[|output|] == node;
    forall x | x in SubnetsOf(more) ensures x in SubnetsOf(output) + {SubnetOf(node.addr)} {
      var i :| 0 <= i < |more| && SubnetOf(more[i].addr) == x;
    }
    forall x | x in PrefixesOf(more) ensures x in PrefixesOf(output) + {PrefixOf(node)} {
      var i :| 0 <= i < |more| && PrefixOf(more[i]) == x;
    }
  }

  lemma HeadKnown(slots: Slots, now: Instant, d: Draft, contents: seq<seq<nat>>, picked: seq<nat>, q: nat)
    requires Ok(slots, now, d, contents, picked) && q < 2 * PREFIXES && contents[q] != []
    ensures q < |contents| && Eligible(slots, now, contents[q][0])
    ensures PrefixOf(NodeAt(slots, contents[q][0])) == q % PREFIXES
    ensures |contents| == 2 * PREFIXES && NoRepeats(contents[q]) && Apart(contents)
  {
    hide PrefixOf;
    assert contents[q][0] in contents[q];
    assert Spells(d.bank.queues[q], d.bank.links, contents[q]);
  }

  /** Output the node at the head of queue `q`. */
  method Pick(slots: Slots, now: Instant, d: Draft, q: nat, ghost contents: seq<seq<nat>>, ghost picked: seq<nat>)
    returns (r: Draft)
    requires Ok(slots, now, d, contents, picked) && q < 2 * PREFIXES && contents[q] != []
    ensures Ok(slots, now, r, contents[q := contents[q][1..]], picked + [contents[q][0]])
    ensures Occupied(slots, contents[q][0]) && r.output == d.output + [NodeAt(slots, contents[q][0])]
  {
    HeadKnown(slots, now, d, contents, picked, q);
    SplitPick(slots, now, contents, picked, q);
    hide Spelled, Split, Eligible, PrefixOf, SubnetsOf, PrefixesOf;
    var slot, bank := BankPop(d.bank, q, contents);
    EligibleOccupied(slots, now, slot.value);
    var node := NodeAt(slots, slot.value);
    OutputGrows(d.output, node);
    var p := PrefixOf(node);
    r := Draft(bank, d.output + [node], d.subnets + {SubnetOf(node.addr)}, d.selected[p := d.selected[p] + 1]);
  }

  /** Output the node at the head of prefix queue `p` if its subnet is new; else put the slot off. */
  method PickOrDefer(slots: Slots, now: Instant, d: Draft, p: nat, ghost contents: seq<seq<nat>>,
                     ghost picked: seq<nat>)
    returns (r: Draft, taken: bool)
    requires Ok(slots, now, d, contents, picked) && p < PREFIXES && contents[p] != []
    ensures Occupied(slots, contents[p][0])
    ensures taken <==> SubnetOf(NodeAt(slots, contents[p][0]).addr) !in SubnetsOf(d.output)
    ensures taken ==> Ok(slots, now, r, contents[p := contents[p][1..]], picked + [contents[p][0]])
    ensures taken ==> r.output == d.output + [NodeAt(slots, contents[p][0])]
    ensures !taken ==> Ok(slots, now, r, Deferred(contents, p), picked) && r.output == d.output
  {
    hide Eligible, PrefixOf, SubnetsOf, PrefixesOf, Spelled, Split, Counts, Lists;
    HeadKnown(slots, now, d, contents, picked, p);
    EligibleOccupied(slots, now, contents[p][0]);
    var slot := HeadOf(d.bank, p, contents);
    var node := NodeAt(slots, slot);
    taken := SubnetOf(node.addr) !in d.subnets;
    if taken {
      r := Pick(slots, now, d, p, contents, picked);
    } else {
      SplitDefer(slots, now, contents, picked, p);
      var popped, bank := BankPop(d.bank, p, contents);
      PutOff(contents, p);
      bank := BankPush(bank, PREFIXES + p, slot, contents[p := contents[p][1..]]);
      r := d.(bank := bank);
    }
  }

  method HeadOf(b: Bank, p: nat, ghost contents: seq<seq<nat>>) returns (slot: nat)
    requires Spelled(b, contents) && p < PREFIXES && contents[p] != []
    ensures slot == contents[p][0]
  {
    assert Spells(b.queues[p], b.links, contents[p]);
    slot := b.queues[p].head.value;
  }

  lemma PutOff(contents: seq<seq<nat>>, p: nat)
    requires |contents| == 2 * PREFIXES && p < PREFIXES && contents[p] != []
    requires NoRepeats(contents[p]) && Apart(contents)
    ensures var popped := contents[p := contents[p][1..]];
      && (forall q :: 0 <= q < |popped| ==> contents[p][0] !in popped[q])
      && popped[PREFIXES + p := popped[PREFIXES + p] + [contents[p][0]]] == Deferred(contents, p)
  {
    TailIn(contents[p]);
    assert contents[p][0] in contents[p];
  }

  // ---------- whose pick it is ----------

  /** Where `x` stands in a list. */
  ghost function Rank(s: seq<nat>, x: nat): nat {
    if s == [] || s[0] == x then 0 else 1 + Rank(s[1..], x)
  }

  lemma {:induction false} RankAt(s: seq<nat>, i: nat)
    requires NoRepeats(s) && i < |s|
    ensures Rank(s, s[i]) == i
  {
    if i == 0 {
    } else {
      assert s[1..][i - 1] == s[i];
      RankAt(s[1..], i - 1);
    }
  }

  lemma RanksDiffer(s: seq<nat>, x: nat, y: nat)
    requires NoRepeats(s) && x in s && y in s && x != y
    ensures Rank(s, x) != Rank(s, y)
  {
    var i :| 0 <= i < |s| && s[i] == x;
    var j :| 0 <= j < |s| && s[j] == y;
    RankAt(s, i);
    RankAt(s, j);
  }

  /** The members of `s` come in the order of `base`. */
  ghost predicate Ranked(base: seq<nat>, s: seq<nat>) {
    forall i, j :: 0 <= i < j < |s| ==> Rank(base, s[i]) < Rank(base, s[j])
  }

  lemma RankedSelf(s: seq<nat>)
    requires NoRepeats(s)
    ensures Ranked(s, s)
  {
    forall i, j | 0 <= i < j < |s| ensures Rank(s, s[i]) < Rank(s, s[j]) {
      RankAt(s, i);
      RankAt(s, j);
    }
  }

  /** How many of the nodes have the prefix. */
  ghost function Turns(nodes: seq<Node>, p: nat): nat {
    if nodes == [] then 0
    else Turns(nodes[..|nodes| - 1], p) + (if PrefixOf(nodes[|nodes| - 1]) == p then 1 else 0)
  }

  lemma TurnsMore(nodes: seq<Node>, node: Node, p: nat)
    ensures Turns(nodes + [node], p) == Turns(nodes, p) + (if PrefixOf(node) == p then 1 else 0)
  {
    hide PrefixOf;
    assert (nodes + [node])[..|nodes|] == nodes;
  }

  /** Prefix `p` has its next turn before prefix `q` has: they have had as many, and `p` precedes `q` in the order; or
      `q` has had one more, and precedes `p`. */
  ghost predicate Ahead(order: seq<nat>, since: seq<Node>, p: nat, q: nat) {
    if Rank(order, p) < Rank(order, q) then Turns(since, p) == Turns(since, q)
    else Rank(order, q) < Rank(order, p) && Turns(since, q) == Turns(since, p) + 1
  }

  /** The prefixes are lined up for their turns. */
  ghost predicate LinedUp(order: seq<nat>, since: seq<Node>, active: seq<nat>) {
    forall i, j :: 0 <= i < j < |active| ==> Ahead(order, since, active[i], active[j])
  }

  lemma LinedUpFirst(order: seq<nat>, active: seq<nat>)
    requires Ranked(order, active)
    ensures LinedUp(order, [], active)
  {
  }

  lemma LinedUpNext(order: seq<nat>, since: seq<Node>, active: seq<nat>, node: Node)
    requires LinedUp(order, since, active) && active != [] && NoRepeats(active) && PrefixOf(node) == active[0]
    ensures LinedUp(order, since + [node], active[1..] + [active[0]])
    ensures LinedUp(order, since + [node], active[1..]) && LinedUp(order, since, active[1..])
  {
    hide PrefixOf, Turns, Rank;
    var next := active[1..] + [active[0]];
    assert forall i :: 0 <= i < |active| - 1 ==> next[i] == active[i + 1] == active[1..][i] && next[i] != active[0];
    forall i, j | 0 <= i < j < |next| ensures Ahead(order, since + [node], next[i], next[j]) {
      TurnsMore(since, node, next[i]);
      TurnsMore(since, node, next[j]);
      if j < |active| - 1 {
        assert Ahead(order, since, active[i + 1], active[j + 1]);
      } else {
        assert Ahead(order, since, active[0], active[i + 1]);
      }
    }
    forall i, j | 0 <= i < j < |active| - 1
      ensures Ahead(order, since + [node], active[1..][i], active[1..][j])
      ensures Ahead(order, since, active[1..][i], active[1..][j])
    {
      assert Ahead(order, since + [node], next[i], next[j]) && Ahead(order, since, active[i + 1], active[j + 1]);
    }
  }

  /** An eligible slot that has not been picked. */
  predicate Left(slots: Slots, now: Instant, chosen: seq<nat>, x: int) {
    Eligible(slots, now, x) && x !in chosen
  }

  /** One whose subnet is not among the nodes either. */
  ghost predicate IsNews(slots: Slots, now: Instant, nodes: seq<Node>, chosen: seq<nat>, x: int) {
    Left(slots, now, chosen, x) && SubnetOf(NodeAt(slots, x).addr) !in SubnetsOf(nodes)
  }

  /** Slot `y` is picked rather than slot `x`: because it comes first in their prefix, or because it is the turn of its
      prefix, after the picks made since. */
  ghost predicate Before(slots: Slots, order: seq<nat>, start: seq<seq<nat>>, since: seq<Node>, y: nat, x: nat)
    requires Occupied(slots, x) && Occupied(slots, y) && |start| >= PREFIXES
  {
    var p, q := PrefixOf(NodeAt(slots, y)), PrefixOf(NodeAt(slots, x));
    if p == q then Rank(start[p], y) <= Rank(start[p], x) else Ahead(order, since, p, q)
  }

  /** Among the slots that would bring a new subnet, it was the pick of `y`. */
  ghost predicate FillPick(slots: Slots, now: Instant, order: seq<nat>, start: seq<seq<nat>>, nodes: seq<Node>,
                           since: seq<Node>, chosen: seq<nat>, y: nat) {
    && |start| >= PREFIXES && Occupied(slots, y)
    && forall x :: IsNews(slots, now, nodes, chosen, x) ==> Before(slots, order, start, since, y, x)
  }

  /** Among all the slots left, it was. */
  ghost predicate RestPick(slots: Slots, now: Instant, order: seq<nat>, start: seq<seq<nat>>, since: seq<Node>,
                           chosen: seq<nat>, y: nat) {
    && |start| >= PREFIXES && Occupied(slots, y)
    && forall x :: Left(slots, now, chosen, x) ==> Before(slots, order, start, since, y, x)
  }

  /** Every pick from `from` on was the right one. */
  ghost predicate FillRun(slots: Slots, now: Instant, order: seq<nat>, start: seq<seq<nat>>, output: seq<Node>,
                          picked: seq<nat>, from: nat) {
    && from <= |output| == |picked|
    && forall j :: from <= j < |output| ==>
         FillPick(slots, now, order, start, output[..j], output[from..j], picked[..j], picked[j])
  }

  ghost predicate RestRun(slots: Slots, now: Instant, order: seq<nat>, start: seq<seq<nat>>, output: seq<Node>,
                          picked: seq<nat>, from: nat) {
    && from <= |output| == |picked|
    && forall j :: from <= j < |output| ==>
         RestPick(slots, now, order, start, output[from..j], picked[..j], picked[j])
  }

  lemma FillRunMore(slots: Slots, now: Instant, order: seq<nat>, start: seq<seq<nat>>, output: seq<Node>,
                    picked: seq<nat>, from: nat, node: Node, y: nat)
    requires FillRun(slots, now, order, start, output, picked, from)
    requires FillPick(slots, now, order, start, output, output[from..], picked, y)
    ensures FillRun(slots, now, order, start, output + [node], picked + [y], from)
  {
    hide FillPick;
    var more, most := output + [node], picked + [y];
    forall j | from <= j < |more|
      ensures FillPick(slots, now, order, start, more[..j], more[from..j], most[..j], most[j])
    {
      assert more[..j] == output[..j] && more[from..j] == output[from..j] && most[..j] == picked[..j];
      assert output[..|output|] == output && output[from..|output|] == output[from..] && picked[..|picked|] == picked;
    }
  }

  lemma RestRunMore(slots: Slots, now: Instant, order: seq<nat>, start: seq<seq<nat>>, output: seq<Node>,
                    picked: seq<nat>, from: nat, node: Node, y: nat)
    requires RestRun(slots, now, order, start, output, picked, from)
    requires RestPick(slots, now, order, start, output[from..], picked, y)
    ensures RestRun(slots, now, order, start, output + [node], picked + [y], from)
  {
    hide RestPick;
    var more, most := output + [node], picked + [y];
    forall j | from <= j < |more| ensures RestPick(slots, now, order, start, more[from..j], most[..j], most[j]) {
      assert more[from..j] == output[from..j] && most[..j] == picked[..j];
      assert output[from..|output|] == output[from..] && picked[..|picked|] == picked;
    }
  }

  /** What is queued of each prefix, put off or not, is in the order that it started in. */
  ghost predicate Kept(start: seq<seq<nat>>, contents: seq<seq<nat>>) {
    && |start| == |contents| == 2 * PREFIXES
    && forall p :: 0 <= p < PREFIXES ==> Ranked(start[p], contents[PREFIXES + p] + contents[p])
  }

  lemma KeptPick(start: seq<seq<nat>>, contents: seq<seq<nat>>, q: nat)
    requires Kept(start, contents) && q < 2 * PREFIXES && contents[q] != []
    ensures Kept(start, contents[q := contents[q][1..]])
  {
    hide Rank;
    var after := contents[q := contents[q][1..]];
    forall p | 0 <= p < PREFIXES ensures Ranked(start[p], after[PREFIXES + p] + after[p]) {
      var was := contents[PREFIXES + p] + contents[p];
      assert Ranked(start[p], was);
      if q == p {
        RankedWithout(start[p], was, |contents[PREFIXES + p]|);
        assert after[PREFIXES + p] + after[p] == was[..|contents[PREFIXES + p]|] + was[|contents[PREFIXES + p]| + 1..];
      } else if q == PREFIXES + p {
        RankedWithout(start[p], was, 0);
        assert after[PREFIXES + p] + after[p] == was[..0] + was[1..];
      }
    }
  }

  lemma RankedWithout(base: seq<nat>, s: seq<nat>, k: nat)
    requires Ranked(base, s) && k < |s|
    ensures Ranked(base, s[..k] + s[k + 1..])
  {
    hide Rank;
    var t := s[..k] + s[k + 1..];
    assert forall i :: 0 <= i < |t| ==> t[i] == if i < k then s[i] else s[i + 1];
  }

  lemma KeptDefer(start: seq<seq<nat>>, contents: seq<seq<nat>>, p: nat)
    requires Kept(start, contents) && p < PREFIXES && contents[p] != []
    ensures Kept(start, Deferred(contents, p))
  {
    hide Ranked;
    var after := Deferred(contents, p);
    forall q | 0 <= q < PREFIXES ensures Ranked(start[q], after[PREFIXES + q] + after[q]) {
      assert after[PREFIXES + q] + after[q] == contents[PREFIXES + q] + contents[q];
    }
  }

  /** The head of a prefix's queue comes before whatever else is queued there. */
  lemma KeptHead(start: seq<seq<nat>>, contents: seq<seq<nat>>, p: nat, q: nat, x: nat)
    requires Kept(start, contents) && p < PREFIXES && (q == p || (q == PREFIXES + p && contents[p] == []))
    requires contents[q] != [] && x in contents[q]
    ensures Rank(start[p], contents[q][0]) <= Rank(start[p], x)
  {
    hide Rank;
    var all := contents[PREFIXES + p] + contents[p];
    assert Ranked(start[p], all);
    var k :| 0 <= k < |contents[q]| && contents[q][k] == x;
    var at := if q == p then |contents[PREFIXES + p]| else 0;
    assert all[at] == contents[q][0] && all[at + k] == x;
  }

  // ---------- the three passes ----------

  ghost function Lane(contents: seq<seq<nat>>, base: nat, p: nat): seq<nat>
    requires base + p < |contents|
  {
    contents[base + p]
  }

  /** `active` names, once each, the queues from `base` on that are not empty. */
  ghost predicate Names(active: seq<nat>, contents: seq<seq<nat>>, base: nat) {
    && base + PREFIXES <= |contents| && NoRepeats(active)
    && (forall p :: p in active ==> p < PREFIXES && Lane(contents, base, p) != [])
    && (forall p :: 0 <= p < PREFIXES && Lane(contents, base, p) != [] ==> p in active)
  }

  ghost predicate AllEmpty(contents: seq<seq<nat>>, from: nat, to: nat) {
    forall p :: from <= p < to && p < |contents| ==> contents[p] == []
  }

  /** After `k` prefixes of `order`, the seed pass has taken the head of each until the limit, and
      touched nothing else. */
  ghost predicate Seeded(start: seq<seq<nat>>, order: seq<nat>, k: nat, limit: nat, contents: seq<seq<nat>>,
                         picked: seq<nat>) {
    && |start| == |contents| == 2 * PREFIXES && k <= |order|
    && |picked| == (if k < limit then k else limit)
    && (forall i :: 0 <= i < |picked| ==>
          order[i] < PREFIXES && start[order[i]] != [] && picked[i] == start[order[i]][0])
    && (forall j :: k <= j < |order| ==> order[j] < PREFIXES && contents[order[j]] == start[order[j]])
    && AllEmpty(contents, PREFIXES, 2 * PREFIXES)
  }

  /** `active` names the prefixes among the first `k` that have candidates left. */
  ghost predicate Listed(order: seq<nat>, k: nat, contents: seq<seq<nat>>, active: seq<nat>) {
    && |contents| == 2 * PREFIXES && k <= |order| && NoRepeats(active)
    && (forall p :: p in active ==> p in order[..k] && p < PREFIXES && contents[p] != [])
    && (forall p :: 0 <= p < PREFIXES && contents[p] != [] ==> p in active || p in order[k..])
  }

  lemma SeedStep(start: seq<seq<nat>>, order: seq<nat>, k: nat, limit: nat, contents: seq<seq<nat>>, picked: seq<nat>)
    requires Seeded(start, order, k, limit, contents, picked) && k < |order| && NoRepeats(order)
    requires order[k] < |start| && start[order[k]] != []
    ensures order[k] < PREFIXES && |contents| == 2 * PREFIXES && contents[order[k]] == start[order[k]]
    ensures if |picked| < limit
      then Seeded(start, order, k + 1, limit, contents[order[k] := contents[order[k]][1..]],
          picked + [contents[order[k]][0]])
      else Seeded(start, order, k + 1, limit, contents, picked)
  {
    assert forall j :: k < j < |order| ==> order[j] != order[k];
  }

  lemma ListStep(order: seq<nat>, k: nat, contents: seq<seq<nat>>, after: seq<seq<nat>>, active: seq<nat>, p: nat)
    requires Listed(order, k, contents, active) && k < |order| && NoRepeats(order) && order[k] == p && p < PREFIXES
    requires |after| == |contents| && forall q :: 0 <= q < |after| && q != p ==> after[q] == contents[q]
    ensures Listed(order, k + 1, after, if after[p] != [] then active + [p] else active)
  {
    assert order[..k + 1] == order[..k] + [p] && order[k..] == [p] + order[k + 1..];
    assert p !in order[..k];
    var again := after[p] != [];
    UniqueSnoc(active, p, again);
    var more := if again then active + [p] else active;
    forall q | q in more ensures q in order[..k + 1] && q < PREFIXES && after[q] != [] {
    }
    forall q | 0 <= q < PREFIXES && after[q] != [] ensures q in more || q in order[k + 1..] {
      assert q != p ==> q in active || q in order[k..];
    }
  }

  lemma UniqueSnoc(active: seq<nat>, p: nat, again: bool)
    requires NoRepeats(active) && p !in active
    ensures var more := if again then active + [p] else active;
      NoRepeats(more) && forall q :: q in more <==> q in active || (q == p && again)
  {
    assert forall i :: 0 <= i < |active| ==> active[i] in active;
  }

  lemma SeedStart(order: seq<nat>, start: seq<seq<nat>>, limit: nat)
    requires Names(order, start, 0) && |start| == 2 * PREFIXES && AllEmpty(start, PREFIXES, 2 * PREFIXES)
    ensures Seeded(start, order, 0, limit, start, []) && Listed(order, 0, start, [])
  {
    assert forall j :: 0 <= j < |order| ==> order[j] in order;
    assert order[0..] == order;
  }

  lemma SeedEnd(start: seq<seq<nat>>, order: seq<nat>, limit: nat, contents: seq<seq<nat>>, picked: seq<nat>,
                active: seq<nat>)
    requires Seeded(start, order, |order|, limit, contents, picked) && Listed(order, |order|, contents, active)
    ensures Names(active, contents, 0) && AllEmpty(contents, PREFIXES, 2 * PREFIXES)
    ensures |picked| == if |order| < limit then |order| else limit
    ensures forall i :: 0 <= i < |picked| ==>
      order[i] < |start| && start[order[i]] != [] && picked[i] == start[order[i]][0]
  {
  }

  /** Facts of a draft that the passes test at run time. */
  lemma DraftFacts(slots: Slots, now: Instant, d: Draft, contents: seq<seq<nat>>, picked: seq<nat>)
    requires Ok(slots, now, d, contents, picked)
    ensures |d.output| == |picked| && |contents| == |d.bank.queues| == 2 * PREFIXES
    ensures forall q :: 0 <= q < 2 * PREFIXES ==> d.bank.queues[q].len == |contents[q]|
  {
    assert forall q :: 0 <= q < |contents| ==> Spells(d.bank.queues[q], d.bank.links, contents[q]);
  }

  /** One seed for each populated prefix, in order, until the limit. */
  method SeedPass(slots: Slots, now: Instant, limit: nat, order: seq<nat>, d: Draft, ghost start: seq<seq<nat>>)
    returns (r: Draft, active: seq<nat>, ghost contents: seq<seq<nat>>, ghost picked: seq<nat>)
    requires Ok(slots, now, d, start, []) && Names(order, start, 0) && AllEmpty(start, PREFIXES, 2 * PREFIXES)
    ensures Ok(slots, now, r, contents, picked) && Names(active, contents, 0)
    ensures AllEmpty(contents, PREFIXES, 2 * PREFIXES)
    ensures |picked| == if |order| < limit then |order| else limit
    ensures forall i :: 0 <= i < |picked| ==>
      order[i] < |start| && start[order[i]] != [] && picked[i] == start[order[i]][0]
    ensures Kept(start, contents) && Ranked(order, active)
  {
    r, active, contents, picked := d, [], start, [];
    DraftFacts(slots, now, d, start, []);
    SeedStart(order, start, limit);
    hide Ok, Seeded, Listed, AllEmpty, Names, Kept;
    KeptStart(slots, now, d, start);
    for k := 0 to |order|
      invariant Ok(slots, now, r, contents, picked) && Kept(start, contents) && Ranked(order, active)
      invariant Seeded(start, order, k, limit, contents, picked) && Listed(order, k, contents, active)
    {
      r, active, contents, picked := SeedOne(slots, now, limit, order, k, r, active, start, contents, picked);
    }
    SeedEnd(start, order, limit, contents, picked, active);
  }

  /** Seed one prefix, and note whether it has more. */
  method SeedOne(slots: Slots, now: Instant, limit: nat, order: seq<nat>, k: nat, d: Draft, active: seq<nat>,
                 ghost start: seq<seq<nat>>, ghost contents: seq<seq<nat>>, ghost picked: seq<nat>)
    returns (r: Draft, more: seq<nat>, ghost after: seq<seq<nat>>, ghost picks: seq<nat>)
    requires Names(order, start, 0) && k < |order| && Ok(slots, now, d, contents, picked)
    requires Seeded(start, order, k, limit, contents, picked) && Listed(order, k, contents, active)
    requires Kept(start, contents) && Ranked(order, active)
    ensures Ok(slots, now, r, after, picks) && Kept(start, after) && Ranked(order, more)
    ensures Seeded(start, order, k + 1, limit, after, picks) && Listed(order, k + 1, after, more)
  {
    var p := order[k];
    NamedAt(order, start, k);
    hide Ok, Seeded, Listed, Names, NoRepeats, Kept, Ranked;
    SeedStep(start, order, k, limit, contents, picked);
    DraftFacts(slots, now, d, contents, picked);
    r, more, after, picks := d, active, contents, picked;
    if |r.output| < limit {
      r := Pick(slots, now, d, p, contents, picked);
      KeptPick(start, contents, p);
      picks := picked + [contents[p][0]];
      after := contents[p := contents[p][1..]];
    }
    DraftFacts(slots, now, r, after, picks);
    ListStep(order, k, contents, after, active, p);
    ListedIn(order, k, contents, active);
    RankedMore(order, k, active);
    if r.bank.queues[p].len > 0 {
      more := active + [p];
    }
  }

  lemma KeptStart(slots: Slots, now: Instant, d: Draft, start: seq<seq<nat>>)
    requires Ok(slots, now, d, start, []) && AllEmpty(start, PREFIXES, 2 * PREFIXES)
    ensures Kept(start, start)
  {
    hide Ranked, Split, Counts, Lists, SubnetsOf;
    forall p | 0 <= p < PREFIXES ensures Ranked(start[p], start[PREFIXES + p] + start[p]) {
      assert Spells(d.bank.queues[p], d.bank.links, start[p]);
      assert start[PREFIXES + p] + start[p] == start[p];
      RankedSelf(start[p]);
    }
  }

  lemma RankedMore(order: seq<nat>, k: nat, active: seq<nat>)
    requires k < |order| && NoRepeats(order) && Ranked(order, active) && forall p :: p in active ==> p in order[..k]
    ensures Ranked(order, active + [order[k]])
  {
    hide Rank;
    var more := active + [order[k]];
    RankAt(order, k);
    forall i, j | 0 <= i < j < |more| ensures Rank(order, more[i]) < Rank(order, more[j]) {
      if j == |active| {
        assert active[i] in active && active[i] in order[..k];
        var m :| 0 <= m < k && order[m] == active[i];
        RankAt(order, m);
      }
    }
  }

  lemma ListedIn(order: seq<nat>, k: nat, contents: seq<seq<nat>>, active: seq<nat>)
    requires Listed(order, k, contents, active)
    ensures k <= |order| && forall p :: p in active ==> p in order[..k]
  {
  }

  lemma NamedAt(order: seq<nat>, start: seq<seq<nat>>, k: nat)
    requires Names(order, start, 0) && k < |order|
    ensures NoRepeats(order) && order[k] < |start| && order[k] < PREFIXES && start[order[k]] != []
  {
    assert order[k] in order;
  }

  /** Every slot put off has a subnet that the output already has. */
  ghost predicate Covered(slots: Slots, contents: seq<seq<nat>>, output: seq<Node>) {
    |contents| == 2 * PREFIXES && forall p, x :: PREFIXES <= p < 2 * PREFIXES && x in contents[p] ==>
      Occupied(slots, x) && SubnetOf(NodeAt(slots, x).addr) in SubnetsOf(output)
  }

  /** From position `from` on, every node brought a new subnet. */
  ghost predicate Diverse(output: seq<Node>, from: nat) {
    forall i :: from <= i < |output| ==> SubnetOf(output[i].addr) !in SubnetsOf(output[..i])
  }

  lemma CoveredPick(slots: Slots, contents: seq<seq<nat>>, output: seq<Node>, p: nat, node: Node)
    requires Covered(slots, contents, output) && p < PREFIXES && contents[p] != []
    ensures Covered(slots, contents[p := contents[p][1..]], output + [node])
  {
    OutputGrows(output, node);
    hide SubnetsOf;
  }

  lemma CoveredDefer(slots: Slots, contents: seq<seq<nat>>, output: seq<Node>, p: nat)
    requires Covered(slots, contents, output) && p < PREFIXES && contents[p] != [] && Occupied(slots, contents[p][0])
    requires SubnetOf(NodeAt(slots, contents[p][0]).addr) in SubnetsOf(output)
    ensures Covered(slots, Deferred(contents, p), output)
  {
    hide SubnetsOf;
    var after := Deferred(contents, p);
    forall q, x | PREFIXES <= q < 2 * PREFIXES && x in after[q]
      ensures Occupied(slots, x) && SubnetOf(NodeAt(slots, x).addr) in SubnetsOf(output) {
      assert q == PREFIXES + p ==> x in contents[q] || x == contents[p][0];
      assert q != PREFIXES + p ==> x in contents[q];
    }
  }

  lemma DiversePick(output: seq<Node>, from: nat, node: Node)
    requires Diverse(output, from) && from <= |output| && SubnetOf(node.addr) !in SubnetsOf(output)
    ensures Diverse(output + [node], from)
  {
    var more := output + [node];
    hide SubnetsOf;
    forall i | from <= i < |more| ensures SubnetOf(more[i].addr) !in SubnetsOf(more[..i]) {
      assert more[..i] == output[..i];
      assert output[..|output|] == output;
    }
  }

  /** Slot `y` of prefix `p` comes first of those that would bring a new subnet. */
  ghost predicate IsNext(slots: Slots, now: Instant, start: seq<seq<nat>>, nodes: seq<Node>, chosen: seq<nat>, p: nat,
                         y: nat) {
    && Occupied(slots, y) && PrefixOf(NodeAt(slots, y)) == p < |start|
    && forall x :: IsNews(slots, now, nodes, chosen, x) && PrefixOf(NodeAt(slots, x)) == p ==>
         Rank(start[p], y) <= Rank(start[p], x)
  }

  /** Whatever would bring a new subnet is queued and was not put off. */
  lemma NewsQueued(slots: Slots, now: Instant, d: Draft, contents: seq<seq<nat>>, picked: seq<nat>, x: nat)
    requires Ok(slots, now, d, contents, picked) && Covered(slots, contents, d.output)
    requires IsNews(slots, now, d.output, picked, x)
    ensures |contents| == 2 * PREFIXES && x in contents[PrefixOf(NodeAt(slots, x))]
  {
    hide PrefixOf, Spelled, Counts, Lists, SubnetsOf;
    assert Queued(slots, contents, x);
  }

  lemma NextInPrefix(slots: Slots, now: Instant, start: seq<seq<nat>>, d: Draft, contents: seq<seq<nat>>,
                     picked: seq<nat>, p: nat)
    requires Ok(slots, now, d, contents, picked) && Covered(slots, contents, d.output) && Kept(start, contents)
    requires p < PREFIXES && contents[p] != []
    ensures IsNext(slots, now, start, d.output, picked, p, contents[p][0])
  {
    HeadKnown(slots, now, d, contents, picked, p);
    EligibleOccupied(slots, now, contents[p][0]);
    hide PrefixOf, Ok, Covered, SubnetsOf, Rank, Left, Eligible;
    forall x | IsNews(slots, now, d.output, picked, x) && PrefixOf(NodeAt(slots, x)) == p
      ensures Rank(start[p], contents[p][0]) <= Rank(start[p], x)
    {
      NewsQueued(slots, now, d, contents, picked, x);
      KeptHead(start, contents, p, p, x);
    }
  }

  /** Examine the candidates of prefix `p` until one has a new subnet. */
  method FillOne(slots: Slots, now: Instant, d: Draft, p: nat, ghost contents: seq<seq<nat>>, ghost picked: seq<nat>,
                 ghost from: nat, ghost start: seq<seq<nat>>)
    returns (r: Draft, taken: bool, ghost after: seq<seq<nat>>, ghost more: seq<nat>)
    requires Ok(slots, now, d, contents, picked) && p < PREFIXES && Covered(slots, contents, d.output)
    requires from <= |d.output| && Diverse(d.output, from) && Kept(start, contents)
    ensures Kept(start, after)
    ensures if taken then more != [] && IsNext(slots, now, start, d.output, picked, p, more[|more| - 1])
                          && more == picked + [more[|more| - 1]]
                          && r.output == d.output + [NodeAt(slots, more[|more| - 1])]
            else r.output == d.output && more == picked
    ensures Ok(slots, now, r, after, more) && Covered(slots, after, r.output) && Diverse(r.output, from)
    ensures forall q :: 0 <= q < PREFIXES && q != p ==> after[q] == contents[q]
    ensures |r.output| == |d.output| + (if taken then 1 else 0) && d.output <= r.output && picked <= more
    ensures !taken ==> after[p] == []
  {
    r, taken, after, more := d, false, contents, picked;
    DraftFacts(slots, now, r, after, more);
    hide Ok, Covered, Diverse, SubnetsOf, SubnetOf, Kept, IsNext;
    while r.bank.queues[p].len > 0 && !taken
      invariant Kept(start, after)
      invariant if taken then more != [] && IsNext(slots, now, start, d.output, picked, p, more[|more| - 1])
                              && more == picked + [more[|more| - 1]] && Occupied(slots, more[|more| - 1])
                              && r.output == d.output + [NodeAt(slots, more[|more| - 1])]
                else r.output == d.output && more == picked
      invariant |r.bank.queues| == |after| == 2 * PREFIXES && r.bank.queues[p].len == |after[p]|
      invariant Ok(slots, now, r, after, more) && Covered(slots, after, r.output) && Diverse(r.output, from)
      invariant forall q :: 0 <= q < PREFIXES && q != p ==> after[q] == contents[q]
      invariant |r.output| == |d.output| + (if taken then 1 else 0) && d.output <= r.output && picked <= more
      decreases r.bank.queues[p].len
    {
      ghost var before, output := r, r.output;
      ghost var head := after[p][0];
      r, taken := PickOrDefer(slots, now, r, p, after, more);
      if taken {
        CoveredPick(slots, after, output, p, NodeAt(slots, head));
        DiversePick(output, from, NodeAt(slots, head));
        NextInPrefix(slots, now, start, before, after, more, p);
        KeptPick(start, after, p);
        after, more := after[p := after[p][1..]], more + [head];
      } else {
        CoveredDefer(slots, after, output, p);
        KeptDefer(start, after, p);
        after := Deferred(after, p);
      }
      DraftFacts(slots, now, r, after, more);
    }
  }

  lemma NamesNext(active: seq<nat>, contents: seq<seq<nat>>, after: seq<seq<nat>>, base: nat)
    requires active != [] && Names(active, contents, base) && |after| == |contents| && active[0] < PREFIXES
    requires forall q :: 0 <= q < PREFIXES && q != active[0] ==> Lane(after, base, q) == Lane(contents, base, q)
    ensures Names(if Lane(after, base, active[0]) != [] then active[1..] + [active[0]] else active[1..], after, base)
  {
    TailIn(active);
    var p := active[0];
    var again := Lane(after, base, p) != [];
    var next := if again then active[1..] + [p] else active[1..];
    assert forall q :: q in next <==> q in active[1..] || (q == p && again);
    assert forall i :: 0 <= i < |active| - 1 ==> active[1..][i] in active[1..];
  }

  /** Round robin over the prefixes, preferring new subnets, until the limit or until every candidate has
      been examined once. */
  method FillPass(slots: Slots, now: Instant, limit: nat, d: Draft, first: seq<nat>, ghost contents: seq<seq<nat>>,
                  ghost picked: seq<nat>, ghost order: seq<nat>, ghost start: seq<seq<nat>>)
    returns (r: Draft, ghost after: seq<seq<nat>>, ghost more: seq<nat>)
    requires Ok(slots, now, d, contents, picked) && Names(first, contents, 0) && |d.output| <= limit
    requires AllEmpty(contents, PREFIXES, 2 * PREFIXES) && Kept(start, contents) && Ranked(order, first)
    ensures Kept(start, after) && FillRun(slots, now, order, start, r.output, more, |d.output|)
    ensures Ok(slots, now, r, after, more) && Covered(slots, after, r.output) && Diverse(r.output, |d.output|)
    ensures d.output <= r.output && picked <= more && |r.output| <= limit
    ensures |r.output| == limit || AllEmpty(after, 0, PREFIXES)
  {
    hide Ok, Covered, Diverse, SubnetsOf, Names, Kept, FillRun, LinedUp, IsNext, AllEmpty, Ranked;
    r, after, more := d, contents, picked;
    var active := first;
    DraftFacts(slots, now, r, after, more);
    ghost var from := |d.output|;
    FillStart(slots, contents, d.output);
    LinedUpFirst(order, first);
    assert d.output[from..] == [];
    NoFill(slots, now, order, start, d.output, picked);
    while |r.output| < limit && active != []
      invariant Kept(start, after) && FillRun(slots, now, order, start, r.output, more, from)
      invariant from <= |r.output| && LinedUp(order, r.output[from..], active)
      invariant Ok(slots, now, r, after, more) && Names(active, after, 0) && |after| == 2 * PREFIXES
      invariant Covered(slots, after, r.output) && Diverse(r.output, |d.output|)
      invariant d.output <= r.output && picked <= more && |r.output| <= limit
      decreases limit - |r.output|, |active|
    {
      NamesHead(active, after, 0);
      var p := active[0];
      ghost var before, was, chosen := after, r, more;
      var taken;
      r, taken, after, more := FillOne(slots, now, r, p, after, more, from, start);
      DraftFacts(slots, now, r, after, more);
      NamesNext(active, before, after, 0);
      Filled(slots, now, order, start, was, before, chosen, r.output, more, active, from, taken);
      active := active[1..];
      if r.bank.queues[p].len > 0 {
        active := active + [p];
      }
    }
    if active == [] { NamesEmpty(after, 0); }
  }

  /** After the turn of a prefix, the picks are still right and the prefixes lined up. */
  lemma Filled(slots: Slots, now: Instant, order: seq<nat>, start: seq<seq<nat>>, d: Draft, contents: seq<seq<nat>>,
               picked: seq<nat>, output: seq<Node>, more: seq<nat>, active: seq<nat>, from: nat, taken: bool)
    requires Ok(slots, now, d, contents, picked) && Covered(slots, contents, d.output) && Names(active, contents, 0)
    requires active != [] && Kept(start, contents) && from <= |d.output|
    requires FillRun(slots, now, order, start, d.output, picked, from) && LinedUp(order, d.output[from..], active)
    requires if taken then more != [] && IsNext(slots, now, start, d.output, picked, active[0], more[|more| - 1])
                           && more == picked + [more[|more| - 1]]
                           && output == d.output + [NodeAt(slots, more[|more| - 1])]
             else output == d.output && more == picked
    ensures FillRun(slots, now, order, start, output, more, from)
    ensures LinedUp(order, output[from..], active[1..])
    ensures taken ==> LinedUp(order, output[from..], active[1..] + [active[0]])
  {
    NamesDistinct(active, contents, 0);
    hide Ok, Covered, Names, Kept, FillRun, LinedUp, FillPick, SubnetsOf, PrefixOf;
    if taken {
      var y := more[|more| - 1];
      FillPicked(slots, now, order, start, d, contents, picked, active, from, y);
      FillRunMore(slots, now, order, start, d.output, picked, from, NodeAt(slots, y), y);
      LinedUpNext(order, d.output[from..], active, NodeAt(slots, y));
      assert output[from..] == d.output[from..] + [NodeAt(slots, y)];
    } else {
      LinedUpRest(order, d.output[from..], active);
    }
  }

  lemma LinedUpRest(order: seq<nat>, since: seq<Node>, active: seq<nat>)
    requires LinedUp(order, since, active) && active != []
    ensures LinedUp(order, since, active[1..])
  {
    hide Ahead;
    forall i, j | 0 <= i < j < |active| - 1 ensures Ahead(order, since, active[1..][i], active[1..][j]) {
      assert Ahead(order, since, active[i + 1], active[j + 1]);
    }
  }

  lemma NamesDistinct(active: seq<nat>, contents: seq<seq<nat>>, base: nat)
    requires Names(active, contents, base)
    ensures NoRepeats(active)
  {
  }

  lemma FillPicked(slots: Slots, now: Instant, order: seq<nat>, start: seq<seq<nat>>, d: Draft, contents: seq<seq<nat>>,
                   picked: seq<nat>, active: seq<nat>, from: nat, y: nat)
    requires Ok(slots, now, d, contents, picked) && Covered(slots, contents, d.output) && Names(active, contents, 0)
    requires active != [] && Kept(start, contents) && from <= |d.output| && LinedUp(order, d.output[from..], active)
    requires IsNext(slots, now, start, d.output, picked, active[0], y)
    ensures FillPick(slots, now, order, start, d.output, d.output[from..], picked, y)
  {
    hide Ok, Covered, SubnetsOf, PrefixOf, Ahead, Rank, Left, Eligible;
    forall x | IsNews(slots, now, d.output, picked, x)
      ensures Occupied(slots, x) && Before(slots, order, start, d.output[from..], y, x)
    {
      NewsOccupied(slots, now, d.output, picked, x);
      NewsQueued(slots, now, d, contents, picked, x);
      var q := PrefixOf(NodeAt(slots, x));
      if q != active[0] {
        assert Lane(contents, 0, q) != [];
        var j :| 0 <= j < |active| && active[j] == q;
        assert Ahead(order, d.output[from..], active[0], active[j]);
      }
    }
  }

  lemma NewsOccupied(slots: Slots, now: Instant, nodes: seq<Node>, chosen: seq<nat>, x: int)
    requires IsNews(slots, now, nodes, chosen, x)
    ensures Occupied(slots, x)
  {
  }

  lemma NoFill(slots: Slots, now: Instant, order: seq<nat>, start: seq<seq<nat>>, output: seq<Node>, picked: seq<nat>)
    ensures |output| == |picked| ==> FillRun(slots, now, order, start, output, picked, |output|)
  {
  }

  lemma FillStart(slots: Slots, contents: seq<seq<nat>>, output: seq<Node>)
    requires |contents| == 2 * PREFIXES && AllEmpty(contents, PREFIXES, 2 * PREFIXES)
    ensures Covered(slots, contents, output) && Diverse(output, |output|)
  {
  }

  lemma NamesHead(active: seq<nat>, contents: seq<seq<nat>>, base: nat)
    requires Names(active, contents, base) && active != []
    ensures active[0] < PREFIXES && base + active[0] < |contents| && Lane(contents, base, active[0]) != []
  {
    assert active[0] in active;
  }

  lemma NamesEmpty(contents: seq<seq<nat>>, base: nat)
    requires Names([], contents, base)
    ensures AllEmpty(contents, base, base + PREFIXES)
  {
    forall p | base <= p < base + PREFIXES && p < |contents| ensures contents[p] == [] {
      assert Lane(contents, base, p - base) == [];
    }
  }

  // ---------- how much there is to sample ----------

  ghost function EligibleSlots(slots: Slots, now: Instant): set<nat> {
    set s | 0 <= s < |slots| && Eligible(slots, now, s)
  }

  ghost function ToSet(s: seq<nat>): set<nat> {
    set x | x in s
  }

  lemma {:induction false} UniqueSize(s: seq<nat>)
    requires NoRepeats(s)
    ensures |ToSet(s)| == |s|
  {
    if s == [] {
    } else {
      UniqueSize(s[1..]);
      TailIn(s);
      assert ToSet(s) == ToSet(s[1..]) + {s[0]};
    }
  }

  /** With every queue empty, every eligible slot has been picked. */
  lemma Exhausted(slots: Slots, now: Instant, contents: seq<seq<nat>>, picked: seq<nat>)
    requires Split(slots, now, contents, picked) && AllEmpty(contents, 0, 2 * PREFIXES)
    ensures |picked| == |EligibleSlots(slots, now)|
  {
    hide PrefixOf;
    forall x | x in EligibleSlots(slots, now) ensures x in picked {
      assert x in picked || Queued(slots, contents, x);
    }
    assert ToSet(picked) == EligibleSlots(slots, now);
    UniqueSize(picked);
  }

  ghost function Total(counts: seq<nat>): nat {
    if counts == [] then 0 else Total(counts[..|counts| - 1]) + counts[|counts| - 1]
  }

  /** The counts of the prefixes add up to the eligible slots. */
  lemma {:induction false} TotalHeld(contents: seq<seq<nat>>, counts: seq<nat>)
    requires |counts| <= |contents| && Apart(contents)
    requires forall p :: 0 <= p < |counts| ==> NoRepeats(contents[p]) && counts[p] == |contents[p]|
    ensures Total(counts) == |Held(contents, 0, |counts|)|
  {
    if counts == [] {
      assert Held(contents, 0, 0) == {};
    } else {
      var n := |counts| - 1;
      TotalHeld(contents, counts[..n]);
      UniqueSize(contents[n]);
      var before, last, all := Held(contents, 0, n), ToSet(contents[n]), Held(contents, 0, n + 1);
      forall x ensures x in all <==> x in before || x in last {
        HeldIn(contents, 0, n, x);
        HeldIn(contents, 0, n + 1, x);
      }
      assert all == before + last;
      forall x | x in last ensures x !in before {
        HeldIn(contents, 0, n, x);
      }
    }
  }

  lemma TotalEligible(slots: Slots, now: Instant, b: Bank, counts: seq<nat>)
    requires Spelled(b, Strata(slots, now, |slots|)) && |counts| == PREFIXES
    requires forall p :: 0 <= p < PREFIXES ==> counts[p] == |Stratum(slots, now, p, |slots|)|
    ensures Total(counts) == |EligibleSlots(slots, now)|
  {
    hide PrefixOf;
    var contents := Strata(slots, now, |slots|);
    forall p | 0 <= p < PREFIXES ensures NoRepeats(contents[p]) && counts[p] == |contents[p]| {
      assert Spells(b.queues[p], b.links, contents[p]);
    }
    TotalHeld(contents, counts);
    assert Held(contents, 0, PREFIXES) == EligibleSlots(slots, now) by {
      forall x: nat ensures x in Held(contents, 0, PREFIXES) <==> x in EligibleSlots(slots, now) {
        HeldIn(contents, 0, PREFIXES, x);
        forall p | 0 <= p < PREFIXES ensures x in contents[p] <==>
          0 <= x < |slots| && Eligible(slots, now, x) && PrefixOf(NodeAt(slots, x)) == p {
          StratumIn(slots, now, p, |slots|);
        }
        if x in EligibleSlots(slots, now) { assert x in contents[PrefixOf(NodeAt(slots, x))]; }
      }
    }
  }

  method Sum(counts: seq<nat>) returns (total: nat)
    ensures total == Total(counts)
  {
    total := 0;
    for i := 0 to |counts|
      invariant total == Total(counts[..i])
    {
      assert counts[..i + 1][..i] == counts[..i];
      total := total + counts[i];
    }
    assert counts[..|counts|] == counts;
  }

  // ---------- the last pass ----------

  /** `order` names, once each, at least the prefixes with slots put off. */
  ghost predicate CoversPutOff(order: seq<nat>, contents: seq<seq<nat>>) {
    && |contents| == 2 * PREFIXES && NoRepeats(order)
    && (forall p :: p in order ==> p < PREFIXES)
    && (forall p :: 0 <= p < PREFIXES && Lane(contents, PREFIXES, p) != [] ==> p in order)
  }

  /** Every queue that was put off gets its turn, prefix by prefix, subnets notwithstanding. */
  method FallbackPass(slots: Slots, now: Instant, limit: nat, order: seq<nat>, d: Draft, ghost contents: seq<seq<nat>>,
                      ghost picked: seq<nat>, ghost start: seq<seq<nat>>)
    returns (r: Draft, ghost after: seq<seq<nat>>, ghost more: seq<nat>)
    requires Ok(slots, now, d, contents, picked) && |d.output| <= limit <= |EligibleSlots(slots, now)|
    requires AllEmpty(contents, 0, PREFIXES) && CoversPutOff(order, contents) && Kept(start, contents)
    ensures RestRun(slots, now, order, start, r.output, more, |d.output|)
    ensures Ok(slots, now, r, after, more) && d.output <= r.output && picked <= more && |r.output| == limit
  {
    hide Ok, Names, AllEmpty, EligibleSlots, Kept, RestRun, LinedUp, CoversPutOff, Ranked;
    DraftFacts(slots, now, d, contents, picked);
    var active := PutOffPrefixes(d.bank, order, contents);
    r, after, more := d, contents, picked;
    ghost var from := |d.output|;
    LinedUpFirst(order, active);
    assert d.output[from..] == [];
    NoRest(slots, now, order, start, d.output, picked);
    while |r.output| < limit && active != []
      invariant Kept(start, after) && RestRun(slots, now, order, start, r.output, more, from)
      invariant from <= |r.output| && LinedUp(order, r.output[from..], active)
      invariant Ok(slots, now, r, after, more) && Names(active, after, PREFIXES)
      invariant |after| == 2 * PREFIXES && AllEmpty(after, 0, PREFIXES)
      invariant d.output <= r.output && picked <= more && |r.output| <= limit
      decreases limit - |r.output|
    {
      NamesHead(active, after, PREFIXES);
      var p := active[0];
      ghost var before := after;
      Rested(slots, now, order, start, r, after, more, active, from);
      KeptPick(start, after, PREFIXES + p);
      r := Pick(slots, now, r, PREFIXES + p, after, more);
      more := more + [after[PREFIXES + p][0]];
      after := after[PREFIXES + p := after[PREFIXES + p][1..]];
      DraftFacts(slots, now, r, after, more);
      StillEmpty(before, after, PREFIXES + p);
      NamesNext(active, before, after, PREFIXES);
      active := active[1..];
      if r.bank.queues[PREFIXES + p].len > 0 {
        active := active + [p];
      }
    }
    DraftFacts(slots, now, r, after, more);
    if active == [] {
      NamesEmpty(after, PREFIXES);
      BothEmpty(after);
      DraftExhausted(slots, now, r, after, more);
    }
  }

  /** After the turn of a prefix whose slots were put off, the picks are still right and the prefixes lined up. */
  lemma Rested(slots: Slots, now: Instant, order: seq<nat>, start: seq<seq<nat>>, d: Draft, contents: seq<seq<nat>>,
               picked: seq<nat>, active: seq<nat>, from: nat)
    requires Ok(slots, now, d, contents, picked) && Names(active, contents, PREFIXES) && active != []
    requires AllEmpty(contents, 0, PREFIXES) && Kept(start, contents) && from <= |d.output|
    requires RestRun(slots, now, order, start, d.output, picked, from) && LinedUp(order, d.output[from..], active)
    requires active[0] < PREFIXES && PREFIXES + active[0] < |contents| && contents[PREFIXES + active[0]] != []
    ensures var y := contents[PREFIXES + active[0]][0];
      && Occupied(slots, y)
      && var output := d.output + [NodeAt(slots, y)];
         && RestRun(slots, now, order, start, output, picked + [y], from)
         && LinedUp(order, output[from..], active[1..]) && LinedUp(order, output[from..], active[1..] + [active[0]])
  {
    NamesDistinct(active, contents, PREFIXES);
    HeadKnown(slots, now, d, contents, picked, PREFIXES + active[0]);
    hide Ok, Names, Kept, RestRun, LinedUp, RestPick, PrefixOf, AllEmpty, Eligible;
    var y := contents[PREFIXES + active[0]][0];
    EligibleOccupied(slots, now, y);
    RestPicked(slots, now, order, start, d, contents, picked, active, from, y);
    RestRunMore(slots, now, order, start, d.output, picked, from, NodeAt(slots, y), y);
    LinedUpNext(order, d.output[from..], active, NodeAt(slots, y));
    assert (d.output + [NodeAt(slots, y)])[from..] == d.output[from..] + [NodeAt(slots, y)];
  }

  lemma RestPicked(slots: Slots, now: Instant, order: seq<nat>, start: seq<seq<nat>>, d: Draft, contents: seq<seq<nat>>,
                   picked: seq<nat>, active: seq<nat>, from: nat, y: nat)
    requires Ok(slots, now, d, contents, picked) && Names(active, contents, PREFIXES) && active != []
    requires AllEmpty(contents, 0, PREFIXES) && Kept(start, contents) && from <= |d.output|
    requires LinedUp(order, d.output[from..], active) && active[0] < PREFIXES && PREFIXES + active[0] < |contents|
    requires contents[PREFIXES + active[0]] != [] && y == contents[PREFIXES + active[0]][0]
    requires Occupied(slots, y) && PrefixOf(NodeAt(slots, y)) == active[0]
    ensures RestPick(slots, now, order, start, d.output[from..], picked, y)
  {
    hide Ok, PrefixOf, Ahead, Rank, Eligible;
    forall x | Left(slots, now, picked, x)
      ensures Occupied(slots, x) && Before(slots, order, start, d.output[from..], y, x)
    {
      EligibleOccupied(slots, now, x);
      LeftPutOff(slots, now, d, contents, picked, x);
      var q := PrefixOf(NodeAt(slots, x));
      if q == active[0] {
        KeptHead(start, contents, q, PREFIXES + q, x);
      } else {
        assert Lane(contents, PREFIXES, q) != [];
        var j :| 0 <= j < |active| && active[j] == q;
        assert Ahead(order, d.output[from..], active[0], active[j]);
      }
    }
  }

  /** Once no candidate is queued, whatever is left was put off. */
  lemma LeftPutOff(slots: Slots, now: Instant, d: Draft, contents: seq<seq<nat>>, picked: seq<nat>, x: nat)
    requires Ok(slots, now, d, contents, picked) && AllEmpty(contents, 0, PREFIXES) && Left(slots, now, picked, x)
    ensures |contents| == 2 * PREFIXES && Occupied(slots, x) && x in contents[PREFIXES + PrefixOf(NodeAt(slots, x))]
  {
    hide PrefixOf, Spelled, Counts, Lists, SubnetsOf;
    assert Queued(slots, contents, x);
  }

  lemma StillEmpty(contents: seq<seq<nat>>, after: seq<seq<nat>>, q: nat)
    requires AllEmpty(contents, 0, PREFIXES) && PREFIXES <= q < |contents| == |after|
    requires forall t :: 0 <= t < |after| && t != q ==> after[t] == contents[t]
    ensures AllEmpty(after, 0, PREFIXES)
  {
  }

  lemma BothEmpty(contents: seq<seq<nat>>)
    requires AllEmpty(contents, 0, PREFIXES) && AllEmpty(contents, PREFIXES, 2 * PREFIXES)
    ensures AllEmpty(contents, 0, 2 * PREFIXES)
  {
  }

  lemma DraftExhausted(slots: Slots, now: Instant, d: Draft, contents: seq<seq<nat>>, picked: seq<nat>)
    requires Ok(slots, now, d, contents, picked) && AllEmpty(contents, 0, 2 * PREFIXES)
    ensures |picked| == |EligibleSlots(slots, now)|
  {
    Exhausted(slots, now, contents, picked);
  }

  method PutOffPrefixes(b: Bank, order: seq<nat>, ghost contents: seq<seq<nat>>) returns (active: seq<nat>)
    requires |contents| == |b.queues| == 2 * PREFIXES && CoversPutOff(order, contents)
    requires forall q :: 0 <= q < 2 * PREFIXES ==> b.queues[q].len == |contents[q]|
    ensures Names(active, contents, PREFIXES) && Ranked(order, active)
  {
    hide Rank;
    active := [];
    for k := 0 to |order|
      invariant NoRepeats(active) && Ranked(order, active)
      invariant forall p :: p in active ==> p in order[..k] && p < PREFIXES && Lane(contents, PREFIXES, p) != []
      invariant forall p :: 0 <= p < PREFIXES && Lane(contents, PREFIXES, p) != [] ==> p in active || p in order[k..]
    {
      var p := order[k];
      assert p in order;
      assert order[..k + 1] == order[..k] + [p] && order[k..] == [p] + order[k + 1..] && p !in order[..k];
      assert forall i :: 0 <= i < |active| ==> active[i] in active;
      assert Lane(contents, PREFIXES, p) == contents[PREFIXES + p];
      RankedMore(order, k, active);
      if b.queues[PREFIXES + p].len > 0 {
        active := active + [p];
      }
    }
  }

  // ---------- the published sample ----------

  /** The prefixes that have an eligible slot, in ascending order. */
  ghost function Populated(slots: Slots, now: Instant, n: nat): seq<nat> {
    if n == 0 then []
    else Populated(slots, now, n - 1) + (if Stratum(slots, now, n - 1, |slots|) != [] then [n - 1] else [])
  }

  lemma {:induction false} PopulatedIs(slots: Slots, now: Instant, n: nat)
    ensures NoRepeats(Populated(slots, now, n))
    ensures forall p :: p in Populated(slots, now, n) <==> 0 <= p < n && Stratum(slots, now, p, |slots|) != []
  {
    hide Stratum;
    if n == 0 {
      assert Populated(slots, now, 0) == [];
    } else {
      PopulatedIs(slots, now, n - 1);
      var before, again := Populated(slots, now, n - 1), Stratum(slots, now, n - 1, |slots|) != [];
      assert Populated(slots, now, n) == if again then before + [n - 1] else before;
      hide Populated, NoRepeats;
      UniqueSnoc(before, n - 1, again);
    }
  }

  /** The strata, each turned so that the member at its cursor comes first. */
  ghost function Turned(slots: Slots, now: Instant, cursors: seq<nat>, n: nat): (c: seq<seq<nat>>)
    requires |cursors| == PREFIXES && n <= PREFIXES
    ensures |c| == 2 * PREFIXES
  {
    seq(2 * PREFIXES, p requires 0 <= p < 2 * PREFIXES =>
      if p < PREFIXES then
        var stratum := Stratum(slots, now, p, |slots|);
        if p < n && stratum != [] then Rotated(stratum, cursors[p] % |stratum|) else stratum
      else [])
  }

  /** Turn every stratum and list the populated prefixes. */
  method Arrange(slots: Slots, now: Instant, b: Bank, counts: seq<nat>, cursors: seq<nat>)
    returns (r: Bank, order: seq<nat>)
    requires Spelled(b, Strata(slots, now, |slots|)) && |b.links| == |slots| && |counts| == |cursors| == PREFIXES
    requires Sizes(counts, slots, now)
    ensures Spelled(r, Turned(slots, now, cursors, PREFIXES)) && |r.links| == |slots|
    ensures order == Populated(slots, now, PREFIXES)
  {
    r, order := b, [];
    TurnNone(slots, now, cursors);
    hide Spelled, Stratum, Strata, Turned, Populated, Sizes;
    for p := 0 to PREFIXES
      invariant Spelled(r, Turned(slots, now, cursors, p)) && |r.links| == |slots|
      invariant order == Populated(slots, now, p)
    {
      SizeAt(counts, slots, now, p);
      PopulatedStep(slots, now, p);
      r := TurnPrefix(slots, now, r, p, counts[p], cursors);
      if counts[p] > 0 {
        order := order + [p];
      }
    }
  }

  /** How many eligible slots each prefix has. */
  ghost predicate Sizes(counts: seq<nat>, slots: Slots, now: Instant) {
    |counts| == PREFIXES && forall p :: 0 <= p < PREFIXES ==> counts[p] == |Stratum(slots, now, p, |slots|)|
  }

  lemma SizeAt(counts: seq<nat>, slots: Slots, now: Instant, p: nat)
    requires Sizes(counts, slots, now) && p < PREFIXES
    ensures p < |counts| && counts[p] == |Stratum(slots, now, p, |slots|)|
  {
    hide Stratum;
  }

  /** Turn the queue of one prefix to the member whose turn it is. */
  method TurnPrefix(slots: Slots, now: Instant, b: Bank, p: nat, count: nat, cursors: seq<nat>) returns (r: Bank)
    requires |cursors| == PREFIXES && p < PREFIXES && count == |Stratum(slots, now, p, |slots|)|
    requires Spelled(b, Turned(slots, now, cursors, p)) && |b.links| == |slots|
    ensures Spelled(r, Turned(slots, now, cursors, p + 1)) && |r.links| == |slots|
  {
    hide Spelled, Stratum, Turned;
    TurnStep(slots, now, cursors, p);
    r := b;
    if count > 0 {
      r := BankRotate(b, p, cursors[p] % count, Turned(slots, now, cursors, p));
    }
  }

  lemma TurnNone(slots: Slots, now: Instant, cursors: seq<nat>)
    requires |cursors| == PREFIXES
    ensures Turned(slots, now, cursors, 0) == Strata(slots, now, |slots|) && Populated(slots, now, 0) == []
  {
    hide Stratum;
  }

  lemma PopulatedStep(slots: Slots, now: Instant, p: nat)
    ensures Populated(slots, now, p + 1) ==
            Populated(slots, now, p) + (if |Stratum(slots, now, p, |slots|)| > 0 then [p] else [])
  {
    hide Stratum;
  }

  lemma TurnStep(slots: Slots, now: Instant, cursors: seq<nat>, p: nat)
    requires |cursors| == PREFIXES && p < PREFIXES
    ensures var stratum, before := Stratum(slots, now, p, |slots|), Turned(slots, now, cursors, p);
      && before[p] == stratum
      && Turned(slots, now, cursors, p + 1) ==
         if stratum == [] then before else before[p := Rotated(stratum, cursors[p] % |stratum|)]
  {
    hide Stratum;
  }

  /** The prefixes with the least coverage, in ascending order. */
  method Sparse(counts: seq<nat>) returns (sparse: seq<nat>)
    requires |counts| == PREFIXES
    ensures sparse != [] && (forall i, j :: 0 <= i < j < |sparse| ==> sparse[i] < sparse[j])
    ensures forall p :: p in sparse <==> 0 <= p < PREFIXES && forall q :: 0 <= q < PREFIXES ==> counts[p] <= counts[q]
  {
    var minimum := counts[0];
    ghost var least := 0;
    for p := 0 to PREFIXES
      invariant 0 <= least < PREFIXES && counts[least] == minimum
      invariant forall q :: 0 <= q < p ==> minimum <= counts[q]
    {
      if counts[p] < minimum { minimum, least := counts[p], p; }
    }
    sparse := [];
    for p := 0 to PREFIXES
      invariant forall i, j :: 0 <= i < j < |sparse| ==> sparse[i] < sparse[j]
      invariant forall q :: q in sparse <==> 0 <= q < p && counts[q] == minimum
    {
      assert forall i :: 0 <= i < |sparse| ==> sparse[i] in sparse;
      if counts[p] == minimum { sparse := sparse + [p]; }
    }
    assert least in sparse;
    forall p | p in sparse ensures forall q :: 0 <= q < PREFIXES ==> counts[p] <= counts[q] {
    }
    forall p | 0 <= p < PREFIXES && forall q :: 0 <= q < PREFIXES ==> counts[p] <= counts[q] ensures p in sparse {
      assert counts[p] <= counts[least];
    }
  }

  /** What a published sample promises. `order` is the order of the prefixes' seeds, `cursors` name the member
      of each prefix whose turn it is, and `filled` is the length before subnets may repeat. */
  ghost predicate IsSample(slots: Slots, now: Instant, limit: nat, order: seq<nat>, cursors: seq<nat>,
                           output: seq<Node>, picked: seq<nat>, filled: nat) {
    && |cursors| == PREFIXES
    && Lists(slots, output, picked) && NoRepeats(picked) && (forall x :: x in picked ==> Eligible(slots, now, x))
    && |output| == SmallerOf(limit, |EligibleSlots(slots, now)|) && filled <= |output|
    && SmallerOf(|order|, |output|) <= filled
    && (forall i :: 0 <= i < SmallerOf(|order|, |output|) ==> SeedAt(slots, now, order[i], cursors, picked[i]))
    && Diverse(output[..filled], SmallerOf(|order|, |output|))
    && (filled < |output| ==>
          forall x :: Eligible(slots, now, x) ==> SubnetOf(NodeAt(slots, x).addr) in SubnetsOf(output[..filled]))
    && var start := Turned(slots, now, cursors, PREFIXES);
       && FillRun(slots, now, order, start, output[..filled], picked[..filled], SmallerOf(|order|, |output|))
       && RestRun(slots, now, order, start, output, picked, filled)
  }

  function SmallerOf(x: nat, y: nat): nat {
    if x < y then x else y
  }

  /** `x` is the member of prefix `p` whose turn it is. */
  ghost predicate SeedAt(slots: Slots, now: Instant, p: nat, cursors: seq<nat>, x: nat) {
    var stratum := Stratum(slots, now, p, |slots|);
    stratum != [] && p < |cursors| && x == stratum[cursors[p] % |stratum|]
  }

  /** A sample at least as large as the number of populated prefixes has a node of each. */
  lemma SampleCoversPrefixes(slots: Slots, now: Instant, limit: nat, order: seq<nat>, cursors: seq<nat>,
                             output: seq<Node>, picked: seq<nat>, filled: nat, p: nat)
    requires IsSample(slots, now, limit, order, cursors, output, picked, filled)
    requires p in order && |order| <= |output|
    ensures exists i :: 0 <= i < |output| && PrefixOf(output[i]) == p
  {
    hide PrefixOf;
    var i :| 0 <= i < |order| && order[i] == p;
    assert SeedAt(slots, now, order[i], cursors, picked[i]);
    StratumIn(slots, now, p, |slots|);
    assert picked[i] in Stratum(slots, now, p, |slots|);
    assert PrefixOf(output[i]) == p;
  }

  lemma SampleStart(slots: Slots, now: Instant, cursors: seq<nat>, b: Bank, populated: seq<nat>, order: seq<nat>)
    requires |cursors| == PREFIXES && Spelled(b, Turned(slots, now, cursors, PREFIXES)) && |b.links| == |slots|
    requires populated == Populated(slots, now, PREFIXES)
    requires NoRepeats(order) && forall p :: p in order <==> p in populated
    ensures var start := Turned(slots, now, cursors, PREFIXES);
      && Ok(slots, now, Draft(b, [], {}, seq(PREFIXES, _ => 0)), start, [])
      && Names(order, start, 0) && AllEmpty(start, PREFIXES, 2 * PREFIXES)
  {
    hide PrefixOf, Spelled, Stratum, Split, Names;
    StartSplit(slots, now, cursors);
    StartNames(slots, now, cursors, order);
    assert SubnetsOf([]) == {} && PrefixesOf([]) == {};
  }

  lemma OrderIs(slots: Slots, now: Instant, order: seq<nat>, populated: seq<nat>)
    requires populated == Populated(slots, now, PREFIXES) && forall p :: p in order <==> p in populated
    ensures forall p :: p in order <==> 0 <= p < PREFIXES && Stratum(slots, now, p, |slots|) != []
  {
    hide Stratum, Populated;
    PopulatedIs(slots, now, PREFIXES);
  }

  lemma StartSplit(slots: Slots, now: Instant, cursors: seq<nat>)
    requires |cursors| == PREFIXES
    ensures Split(slots, now, Turned(slots, now, cursors, PREFIXES), [])
  {
    hide PrefixOf, Stratum, Split, Turned, Strata;
    var start, strata := Turned(slots, now, cursors, PREFIXES), Strata(slots, now, |slots|);
    SplitStart(slots, now);
    forall p, x | 0 <= p < |start| ensures x in start[p] <==> x in strata[p] {
      TurnedIn(slots, now, cursors, p, x);
    }
    SplitSame(slots, now, strata, start, []);
  }

  lemma StartNames(slots: Slots, now: Instant, cursors: seq<nat>, order: seq<nat>)
    requires |cursors| == PREFIXES && NoRepeats(order)
    requires forall p :: p in order <==> p in Populated(slots, now, PREFIXES)
    ensures Names(order, Turned(slots, now, cursors, PREFIXES), 0)
  {
    hide PrefixOf, Stratum, Populated;
    PopulatedIs(slots, now, PREFIXES);
    var start := Turned(slots, now, cursors, PREFIXES);
    forall p | 0 <= p < PREFIXES ensures Lane(start, 0, p) != [] <==> p in order {
      var stratum := Stratum(slots, now, p, |slots|);
      if stratum != [] { assert |Rotated(stratum, cursors[p] % |stratum|)| == |stratum|; }
    }
  }

  lemma TurnedIn(slots: Slots, now: Instant, cursors: seq<nat>, p: nat, x: nat)
    requires |cursors| == PREFIXES && p < 2 * PREFIXES
    ensures x in Turned(slots, now, cursors, PREFIXES)[p] <==> x in Strata(slots, now, |slots|)[p]
  {
    hide Stratum;
    if p < PREFIXES {
      var stratum := Stratum(slots, now, p, |slots|);
      if stratum != [] { RotatedIn(stratum, cursors[p] % |stratum|); }
    }
  }

  lemma SeedsAreTurns(slots: Slots, now: Instant, cursors: seq<nat>, p: nat, x: nat)
    requires |cursors| == PREFIXES && p < PREFIXES
    requires var start := Turned(slots, now, cursors, PREFIXES); start[p] != [] && x == start[p][0]
    ensures SeedAt(slots, now, p, cursors, x)
  {
    hide Stratum;
  }

  lemma PutOffCovered(slots: Slots, now: Instant, contents: seq<seq<nat>>, picked: seq<nat>, order: seq<nat>)
    requires Split(slots, now, contents, picked) && NoRepeats(order)
    requires forall p :: p in order <==> 0 <= p < PREFIXES && Stratum(slots, now, p, |slots|) != []
    ensures CoversPutOff(order, contents)
  {
    hide PrefixOf, Stratum, Eligible;
    forall p | 0 <= p < PREFIXES && Lane(contents, PREFIXES, p) != [] ensures p in order {
      var x := contents[PREFIXES + p][0];
      assert x in contents[PREFIXES + p];
      StratumIn(slots, now, p, |slots|);
      EligibleOccupied(slots, now, x);
      assert x in Stratum(slots, now, p, |slots|);
    }
  }

  /** With the candidate queues empty, every eligible subnet has been output. */
  lemma AllSubnetsOut(slots: Slots, now: Instant, d: Draft, contents: seq<seq<nat>>, picked: seq<nat>)
    requires Ok(slots, now, d, contents, picked) && Covered(slots, contents, d.output)
    requires AllEmpty(contents, 0, PREFIXES)
    ensures forall x :: Eligible(slots, now, x) ==> SubnetOf(NodeAt(slots, x).addr) in SubnetsOf(d.output)
  {
    hide PrefixOf, Spelled, Counts;
    forall x | Eligible(slots, now, x) ensures SubnetOf(NodeAt(slots, x).addr) in SubnetsOf(d.output) {
      if x in picked {
        var i :| 0 <= i < |picked| && picked[i] == x;
        assert d.output[i] == NodeAt(slots, x);
      } else {
        assert Queued(slots, contents, x);
      }
    }
  }

  method QueueLengths(slots: Slots, now: Instant, b: Bank) returns (counts: seq<nat>)
    requires Spelled(b, Strata(slots, now, |slots|))
    ensures |counts| == PREFIXES && forall p :: 0 <= p < PREFIXES ==> counts[p] == |Stratum(slots, now, p, |slots|)|
  {
    hide Stratum;
    assert forall p :: 0 <= p < PREFIXES ==> Spells(b.queues[p], b.links, Strata(slots, now, |slots|)[p]);
    counts := seq(PREFIXES, p requires 0 <= p < PREFIXES => b.queues[p].len);
  }

  /** Seeds, then new subnets, then the rest. */
  method Passes(slots: Slots, now: Instant, limit: nat, populated: seq<nat>, order: seq<nat>, b: Bank,
                cursors: seq<nat>)
    returns (d: Draft, ghost picked: seq<nat>, ghost filled: nat)
    requires |cursors| == PREFIXES && Spelled(b, Turned(slots, now, cursors, PREFIXES)) && |b.links| == |slots|
    requires populated == Populated(slots, now, PREFIXES) && limit <= |EligibleSlots(slots, now)|
    requires NoRepeats(order) && forall p :: p in order <==> p in populated
    ensures IsSample(slots, now, limit, order, cursors, d.output, picked, filled) && Counts(d.selected, d.output)
  {
    ghost var start := Turned(slots, now, cursors, PREFIXES);
    hide *;
    SampleStart(slots, now, cursors, b, populated, order);
    OrderIs(slots, now, order, populated);
    var active;
    ghost var contents;
    d := Draft(b, [], {}, seq(PREFIXES, _ => 0));
    d, active, contents, picked := SeedPass(slots, now, limit, order, d, start);
    SeedFacts(slots, now, d, contents, picked, limit, |order|);
    ghost var seeds := d.output;
    ghost var seedSlots := picked;
    d, contents, picked := FillPass(slots, now, limit, d, active, contents, picked, order, start);
    filled := |d.output|;
    ghost var filling := d.output;
    ghost var fillSlots := picked;
    NoRest(slots, now, order, start, d.output, picked);
    if |d.output| < limit {
      FillFacts(slots, now, d, contents, picked, order);
      d, contents, picked := FallbackPass(slots, now, limit, order, d, contents, picked, start);
    }
    SampleEnd(slots, now, limit, order, cursors, start, seeds, seedSlots, filling, fillSlots, d, contents, picked);
  }

  lemma SeedFacts(slots: Slots, now: Instant, d: Draft, contents: seq<seq<nat>>, picked: seq<nat>, limit: nat,
                  prefixes: nat)
    requires Ok(slots, now, d, contents, picked) && |picked| == if prefixes < limit then prefixes else limit
    ensures Lists(slots, d.output, picked) && |d.output| == |picked| == SmallerOf(prefixes, limit)
  {
  }

  lemma FillFacts(slots: Slots, now: Instant, d: Draft, contents: seq<seq<nat>>, picked: seq<nat>, order: seq<nat>)
    requires Ok(slots, now, d, contents, picked) && Covered(slots, contents, d.output)
    requires AllEmpty(contents, 0, PREFIXES)
    requires NoRepeats(order) && forall p :: p in order <==> 0 <= p < PREFIXES && Stratum(slots, now, p, |slots|) != []
    ensures CoversPutOff(order, contents)
    ensures AllOut(slots, now, d.output)
  {
    AllSubnetsOut(slots, now, d, contents, picked);
    PutOffCovered(slots, now, contents, picked, order);
  }

  ghost predicate AllOut(slots: Slots, now: Instant, output: seq<Node>) {
    forall x :: Eligible(slots, now, x) ==> SubnetOf(NodeAt(slots, x).addr) in SubnetsOf(output)
  }

  lemma NoRest(slots: Slots, now: Instant, order: seq<nat>, start: seq<seq<nat>>, output: seq<Node>, picked: seq<nat>)
    ensures |output| == |picked| ==> RestRun(slots, now, order, start, output, picked, |output|)
  {
  }

  lemma SampleEnd(slots: Slots, now: Instant, limit: nat, order: seq<nat>, cursors: seq<nat>, start: seq<seq<nat>>,
                  seeds: seq<Node>, seedSlots: seq<nat>, filling: seq<Node>, fillSlots: seq<nat>, d: Draft,
                  contents: seq<seq<nat>>, picked: seq<nat>)
    requires |filling| == |fillSlots| && fillSlots <= picked
    requires FillRun(slots, now, order, start, filling, fillSlots, |seeds|)
    requires RestRun(slots, now, order, start, d.output, picked, |filling|)
    requires |cursors| == PREFIXES && start == Turned(slots, now, cursors, PREFIXES)
    requires Ok(slots, now, d, contents, picked) && limit <= |EligibleSlots(slots, now)| && |d.output| == limit
    requires seeds <= filling <= d.output && |seeds| == |seedSlots| == SmallerOf(|order|, limit)
    requires Lists(slots, seeds, seedSlots) && seedSlots <= picked
    requires forall i :: 0 <= i < |seedSlots| ==>
      order[i] < PREFIXES && start[order[i]] != [] && seedSlots[i] == start[order[i]][0]
    requires Diverse(filling, |seeds|) && (|filling| < limit ==> AllOut(slots, now, filling))
    ensures IsSample(slots, now, limit, order, cursors, d.output, picked, |filling|) && Counts(d.selected, d.output)
  {
    hide Spelled, Turned, Stratum, SubnetsOf, PrefixesOf, Eligible, EligibleSlots, FillRun, RestRun;
    assert d.output[..|filling|] == filling && picked[..|filling|] == fillSlots;
    forall i | 0 <= i < SmallerOf(|order|, |d.output|) ensures SeedAt(slots, now, order[i], cursors, picked[i]) {
      SeedsAreTurns(slots, now, cursors, order[i], picked[i]);
    }
  }

  class Sampler {
    var prefixCursor: nat
    var memberCursors: seq<nat>
    var sparsePrefixes: seq<nat>
    /** The link array of the last sample, kept for the next one. */
    var links: seq<Option<nat>>

    ghost predicate Valid()
      reads this
    {
      |memberCursors| == PREFIXES
    }

    constructor ()
      ensures Valid() && prefixCursor == 0 && forall p :: 0 <= p < PREFIXES ==> memberCursors[p] == 0
      ensures |sparsePrefixes| == PREFIXES && forall p :: 0 <= p < PREFIXES ==> sparsePrefixes[p] == p
    {
      links, prefixCursor, memberCursors := [], 0, seq(PREFIXES, _ => 0);
      sparsePrefixes := seq(PREFIXES, p requires 0 <= p => p);
    }

    /** Publish a rotating, stratified sample of the eligible nodes, and note the least covered prefixes. */
    method Snapshot(slots: Slots, limit: nat, now: Instant)
      returns (output: seq<Node>, ghost picked: seq<nat>, ghost order: seq<nat>, ghost filled: nat)
      requires Valid()
      modifies this
      ensures Valid()
      ensures IsSample(slots, now, limit, order, old(memberCursors), output, picked, filled)
      ensures order == SeedOrder(slots, now, old(prefixCursor))
      ensures forall p :: p in sparsePrefixes <==> 0 <= p < PREFIXES && LeastCovered(slots, now, p)
      ensures forall i, j :: 0 <= i < j < |sparsePrefixes| ==> sparsePrefixes[i] < sparsePrefixes[j]
      ensures forall p :: 0 <= p < PREFIXES ==>
        (memberCursors[p] == if p in PrefixesOf(output) then NextTurn(slots, now, old(memberCursors), p)
                             else old(memberCursors)[p])
      ensures prefixCursor == (old(prefixCursor) + 1) % (if order == [] then 1 else |order|)
    {
      hide Populated, Stratum, Spelled, EligibleSlots, IsSample, PrefixesOf, Turned, Strata, LeastCovered, NextTurn,
           SeedOrder, Counts;
      var bank, counts, total := Count(slots, now, Resized(links, |slots|));
      sparsePrefixes := Sparse(counts);
      SparseIsLeast(slots, now, counts, sparsePrefixes);
      var populated;
      bank, populated := Arrange(slots, now, bank, counts, memberCursors);
      var seedOrder := RotateOrder(slots, now, populated);
      order := seedOrder;
      var d;
      d, picked, filled := Passes(slots, now, SmallerOf(limit, total), populated, seedOrder, bank, memberCursors);
      output, links := d.output, d.bank.links;
      SampleLimit(slots, now, limit, order, memberCursors, output, picked, filled);
      SelectedPopulated(slots, now, limit, order, memberCursors, output, picked, filled);
      AdvanceCursors(slots, now, d.selected, counts, output);
      prefixCursor := (prefixCursor + 1) % (if seedOrder == [] then 1 else |seedOrder|);
    }

    method RotateOrder(slots: Slots, now: Instant, populated: seq<nat>) returns (order: seq<nat>)
      requires populated == Populated(slots, now, PREFIXES)
      ensures order == SeedOrder(slots, now, prefixCursor)
      ensures NoRepeats(order) && forall p :: p in order <==> p in populated
    {
      hide Populated, Stratum;
      PopulatedIs(slots, now, PREFIXES);
      order := populated;
      if populated != [] {
        var turn := prefixCursor % |populated|;
        order := populated[turn..] + populated[..turn];
        RotatedUnique(populated, turn);
      }
    }

    method AdvanceCursors(slots: Slots, now: Instant, selected: seq<nat>, counts: seq<nat>, output: seq<Node>)
      requires Valid() && |counts| == PREFIXES && Counts(selected, output)
      requires forall p :: 0 <= p < PREFIXES ==> counts[p] == |Stratum(slots, now, p, |slots|)|
      requires forall p :: p in PrefixesOf(output) ==> p < PREFIXES && counts[p] > 0
      modifies this`memberCursors
      ensures Valid() && forall p :: 0 <= p < PREFIXES ==>
        (memberCursors[p] == if p in PrefixesOf(output) then NextTurn(slots, now, old(memberCursors), p)
                             else old(memberCursors)[p])
    {
      hide Stratum, PrefixesOf;
      for n := 0 to PREFIXES
        invariant |memberCursors| == PREFIXES
        invariant forall p :: n <= p < PREFIXES ==> memberCursors[p] == old(memberCursors)[p]
        invariant forall p :: 0 <= p < n ==>
          (memberCursors[p] == if p in PrefixesOf(output) then NextTurn(slots, now, old(memberCursors), p)
                               else old(memberCursors)[p])
      {
        if selected[n] > 0 {
          memberCursors := memberCursors[n := (memberCursors[n] + 1) % counts[n]];
        }
      }
    }
  }

  /** A link array of another length; what it held before stays, and does not matter. */
  function Resized(links: seq<Option<nat>>, n: nat): (r: seq<Option<nat>>)
    ensures |r| == n
  {
    if n <= |links| then links[..n] else links + seq(n - |links|, _ => None)
  }

  /** The nodes of a sample have different endpoints, because those of the reservoir have. */
  lemma SampleDistinct(slots: Slots, index: map<Addr, nat>, now: Instant, limit: nat, order: seq<nat>,
                       cursors: seq<nat>, output: seq<Node>, picked: seq<nat>, filled: nat)
    requires IsSample(slots, now, limit, order, cursors, output, picked, filled) && IndexOk(slots, index)
    ensures forall i, j :: 0 <= i < j < |output| ==> output[i].addr != output[j].addr
  {
    hide EligibleSlots, Diverse, SubnetsOf, SeedAt, PrefixOf;
    forall i, j | 0 <= i < j < |output| ensures output[i].addr != output[j].addr {
      assert picked[i] in picked && picked[j] in picked && picked[i] != picked[j];
      assert Occupied(slots, picked[i]) && Occupied(slots, picked[j]);
    }
  }

  /** A sample names only members of the reservoir that have neither expired nor are to be left alone for now, and all
      of them unless it is as long as was asked for. */
  lemma SampleLive(slots: Slots, index: map<Addr, nat>, now: Instant, limit: nat, order: seq<nat>, cursors: seq<nat>,
                   output: seq<Node>, picked: seq<nat>, filled: nat, a: Addr)
    requires IsSample(slots, now, limit, order, cursors, output, picked, filled) && IndexOk(slots, index)
    requires a in Members(slots, index)
    ensures var info := Members(slots, index)[a];
      var isLive := now < info.expiresAt && (info.blockedUntil.Some? ==> info.blockedUntil.value <= now);
      (info.node in output ==> isLive) && (|output| < limit && isLive ==> info.node in output)
  {
    hide EligibleSlots, FillRun, RestRun, SubnetsOf, PrefixOf, SeedAt, Turned, Diverse;
    var info := Members(slots, index)[a];
    if info.node in output {
      var i :| 0 <= i < |output| && output[i] == info.node;
      assert picked[i] in picked;
    }
    if |output| < limit && Eligible(slots, now, index[a]) {
      AllPicked(slots, now, picked, index[a]);
      var i :| 0 <= i < |picked| && picked[i] == index[a];
      assert output[i] == info.node;
    }
  }

  lemma AllPicked(slots: Slots, now: Instant, picked: seq<nat>, x: nat)
    requires NoRepeats(picked) && (forall y :: y in picked ==> Eligible(slots, now, y))
    requires |picked| == |EligibleSlots(slots, now)| && Eligible(slots, now, x)
    ensures x in picked
  {
    AllAreListed(picked, EligibleSlots(slots, now));
  }

  /** A list without repeats of as many members as a set has lists them all. */
  lemma AllAreListed(s: seq<nat>, all: set<nat>)
    requires NoRepeats(s) && (forall x :: x in s ==> x in all) && |s| == |all|
    ensures forall x :: x in all ==> x in s
  {
    UniqueSize(s);
    if x :| x in all && x !in s {
      SubsetSize(ToSet(s), all - {x});
    }
  }

  method Count(slots: Slots, now: Instant, links: seq<Option<nat>>) returns (bank: Bank, counts: seq<nat>, total: nat)
    requires |links| == |slots|
    ensures Spelled(bank, Strata(slots, now, |slots|)) && |bank.links| == |slots|
    ensures |counts| == PREFIXES && forall p :: 0 <= p < PREFIXES ==> counts[p] == |Stratum(slots, now, p, |slots|)|
    ensures total == |EligibleSlots(slots, now)|
  {
    hide *;
    bank := Gather(slots, now, links);
    counts := QueueLengths(slots, now, bank);
    TotalEligible(slots, now, bank, counts);
    total := Sum(counts);
  }

  lemma SparseIsLeast(slots: Slots, now: Instant, counts: seq<nat>, sparse: seq<nat>)
    requires |counts| == PREFIXES && forall p :: 0 <= p < PREFIXES ==> counts[p] == |Stratum(slots, now, p, |slots|)|
    requires forall p :: p in sparse <==> 0 <= p < PREFIXES && forall q :: 0 <= q < PREFIXES ==> counts[p] <= counts[q]
    ensures forall p :: p in sparse <==> 0 <= p < PREFIXES && LeastCovered(slots, now, p)
  {
    hide Stratum;
    forall p | 0 <= p < PREFIXES
      ensures LeastCovered(slots, now, p) <==> forall q :: 0 <= q < PREFIXES ==> counts[p] <= counts[q] {
    }
  }

  ghost function SeedOrder(slots: Slots, now: Instant, cursor: nat): seq<nat> {
    var populated := Populated(slots, now, PREFIXES);
    if populated == [] then [] else Rotated(populated, cursor % |populated|)
  }

  ghost function NextTurn(slots: Slots, now: Instant, cursors: seq<nat>, p: nat): nat
    requires p < |cursors|
  {
    var count := |Stratum(slots, now, p, |slots|)|;
    if count == 0 then cursors[p] else (cursors[p] + 1) % count
  }

  ghost predicate LeastCovered(slots: Slots, now: Instant, p: nat) {
    forall q :: 0 <= q < PREFIXES ==> |Stratum(slots, now, p, |slots|)| <= |Stratum(slots, now, q, |slots|)|
  }

  lemma RotatedUnique(s: seq<nat>, count: nat)
    requires NoRepeats(s) && count <= |s|
    ensures NoRepeats(Rotated(s, count)) && forall x :: x in Rotated(s, count) <==> x in s
  {
    RotatedIn(s, count);
  }

  lemma SampleLimit(slots: Slots, now: Instant, limit: nat, order: seq<nat>, cursors: seq<nat>, output: seq<Node>,
                    picked: seq<nat>, filled: nat)
    requires IsSample(slots, now, SmallerOf(limit, |EligibleSlots(slots, now)|), order, cursors, output, picked, filled)
    ensures IsSample(slots, now, limit, order, cursors, output, picked, filled)
  {
    hide EligibleSlots, Diverse, SubnetsOf, Lists, SeedAt;
  }

  lemma SelectedPopulated(slots: Slots, now: Instant, limit: nat, order: seq<nat>, cursors: seq<nat>, output: seq<Node>,
                          picked: seq<nat>, filled: nat)
    requires IsSample(slots, now, limit, order, cursors, output, picked, filled)
    ensures forall p :: p in PrefixesOf(output) ==> p < PREFIXES && |Stratum(slots, now, p, |slots|)| > 0
  {
    hide EligibleSlots, Diverse, SubnetsOf, SeedAt, PrefixOf;
    forall p | p in PrefixesOf(output) ensures p < PREFIXES && |Stratum(slots, now, p, |slots|)| > 0 {
      var i :| 0 <= i < |output| && PrefixOf(output[i]) == p;
      assert picked[i] in picked;
      StratumIn(slots, now, p, |slots|);
      assert picked[i] in Stratum(slots, now, p, |slots|);
    }
  }

  // ---------- whose turn it is ----------

  /** A snapshot: the reservoir that it was taken of, the cursors that it found, and what it published. */
  datatype Shot = Shot(slots: Slots, now: Instant, limit: nat, order: seq<nat>, cursors: seq<nat>, output: seq<Node>,
                       picked: seq<nat>, filled: nat)

  /** The snapshot has a seed for the prefix. */
  ghost predicate HasSeed(s: Shot, p: nat) {
    exists i :: 0 <= i < SmallerOf(|s.order|, |s.output|) && s.order[i] == p
  }

  /** The node in slot `x` is the seed that the snapshot published for the prefix. */
  ghost predicate Seeds(s: Shot, p: nat, x: nat) {
    exists i :: 0 <= i < SmallerOf(|s.order|, |s.output|) && s.order[i] == p && i < |s.picked| && s.picked[i] == x
  }

  /** A snapshot with a seed for the prefix, whose eligible members were these. */
  ghost predicate Shows(s: Shot, p: nat, members: seq<nat>) {
    && IsSample(s.slots, s.now, s.limit, s.order, s.cursors, s.output, s.picked, s.filled)
    && p < PREFIXES == |s.cursors| && Stratum(s.slots, s.now, p, |s.slots|) == members != [] && HasSeed(s, p)
  }

  /** The cursors that a snapshot leaves are those that the next one finds. */
  ghost predicate Succeeds(s: Shot, t: Shot, p: nat) {
    && p < PREFIXES == |s.cursors| == |t.cursors|
    && t.cursors[p] == if p in PrefixesOf(s.output) then NextTurn(s.slots, s.now, s.cursors, p) else s.cursors[p]
  }

  /** Snapshots one after the other while the prefix keeps its members. */
  ghost predicate Shots(shots: seq<Shot>, p: nat, members: seq<nat>) {
    && (forall k :: 0 <= k < |shots| ==> Shows(shots[k], p, members))
    && (forall k :: 0 <= k < |shots| - 1 ==> Succeeds(shots[k], shots[k + 1], p))
  }

  lemma ShotSeed(s: Shot, p: nat, members: seq<nat>)
    requires Shows(s, p, members)
    ensures p in PrefixesOf(s.output) && Seeds(s, p, members[s.cursors[p] % |members|])
  {
    hide EligibleSlots, Diverse, SubnetsOf, PrefixOf, Eligible;
    var i :| 0 <= i < SmallerOf(|s.order|, |s.output|) && s.order[i] == p;
    assert SeedAt(s.slots, s.now, s.order[i], s.cursors, s.picked[i]);
    StratumIn(s.slots, s.now, p, |s.slots|);
    assert s.picked[i] in members;
    assert PrefixOf(s.output[i]) == p;
  }

  lemma {:induction false} MultipleGrows(n: nat, k: nat)
    requires k >= 1
    ensures n * k >= n
  {
    if k == 1 {
    } else {
      MultipleGrows(n, k - 1);
      assert n * k == n * (k - 1) + n;
    }
  }

  lemma OneRemainder(n: int, d: int, m: int, q: int, r: int)
    requires n * d + m == n * q + r && 0 <= m < n && 0 <= r < n
    ensures m == r
  {
    assert n * (d - q) == n * d - n * q && n * (q - d) == n * q - n * d;
    if d > q {
      MultipleGrows(n, d - q);
    } else if d < q {
      MultipleGrows(n, q - d);
    }
  }

  lemma Remainder(q: nat, r: nat, n: nat)
    requires r < n
    ensures (n * q + r) % n == r
  {
    var x := n * q + r;
    OneRemainder(n, x / n, x % n, q, r);
  }

  lemma NextRemainder(c: nat, n: nat)
    requires n > 0
    ensures (c + 1) % n == if c % n + 1 == n then 0 else c % n + 1
  {
    var q, r := c / n, c % n;
    assert c == n * q + r;
    if r + 1 == n {
      assert c + 1 == n * (q + 1) + 0;
      Remainder(q + 1, 0, n);
    } else {
      assert c + 1 == n * q + (r + 1);
      Remainder(q, r + 1, n);
    }
  }

  lemma SmallRemainder(r: nat, n: nat)
    requires r < n
    ensures r % n == r
  {
    assert n * 0 + r == r;
    Remainder(0, r, n);
  }

  /** The place `k` steps on from place `at`, of `n` in a circle. */
  function Onward(at: nat, k: nat, n: nat): nat
    requires at < n && k < n
  {
    if at + k < n then at + k else at + k - n
  }

  lemma TurnNext(s: Shot, t: Shot, p: nat, members: seq<nat>)
    requires Shows(s, p, members) && Succeeds(s, t, p)
    ensures var at := s.cursors[p] % |members|;
      t.cursors[p] % |members| == if at + 1 == |members| then 0 else at + 1
  {
    hide IsSample, Stratum, PrefixesOf;
    ShotSeed(s, p, members);
    NextRemainder(s.cursors[p], |members|);
    SmallRemainder(t.cursors[p], |members|);
  }

  /** The cursor moves on by one with every snapshot. */
  lemma {:induction false} TurnAt(shots: seq<Shot>, p: nat, members: seq<nat>, k: nat)
    requires Shots(shots, p, members) && k < |shots| && k < |members|
    ensures p < |shots[0].cursors| && p < |shots[k].cursors|
    ensures shots[k].cursors[p] % |members| == Onward(shots[0].cursors[p] % |members|, k, |members|)
  {
    hide IsSample, Stratum, PrefixesOf, NextTurn, HasSeed;
    assert Shows(shots[0], p, members);
    if k == 0 {
    } else {
      TurnAt(shots, p, members, k - 1);
      assert Succeeds(shots[k - 1], shots[k - 1 + 1], p);
      TurnNext(shots[k - 1], shots[k], p, members);
    }
  }

  /** Every member of a prefix is its seed once within as many snapshots as it has members. */
  lemma EveryMemberSeeds(shots: seq<Shot>, p: nat, members: seq<nat>, x: nat)
    requires Shots(shots, p, members) && x in members && |members| <= |shots|
    ensures exists k :: 0 <= k < |members| && Seeds(shots[k], p, x)
  {
    hide IsSample, Stratum, Seeds, HasSeed, Succeeds;
    var j :| 0 <= j < |members| && members[j] == x;
    assert Shows(shots[0], p, members);
    var at, n := shots[0].cursors[p] % |members|, |members|;
    var k := if at <= j then j - at else j + n - at;
    TurnAt(shots, p, members, k);
    assert Shows(shots[k], p, members);
    ShotSeed(shots[k], p, members);
  }

  // ---------- there is only one sample ----------

  lemma {:induction false} StratumAscends(slots: Slots, now: Instant, p: nat, n: nat)
    requires n <= |slots|
    ensures forall x :: x in Stratum(slots, now, p, n) ==> 0 <= x < n
    ensures forall i, j :: 0 <= i < j < |Stratum(slots, now, p, n)| ==>
      Stratum(slots, now, p, n)[i] < Stratum(slots, now, p, n)[j]
  {
    hide PrefixOf, Eligible;
    if n == 0 {
      assert Stratum(slots, now, p, n) == [];
    } else {
      StratumAscends(slots, now, p, n - 1);
      var before := Stratum(slots, now, p, n - 1);
      assert forall i :: 0 <= i < |before| ==> before[i] in before;
    }
  }

  /** Each prefix starts with its eligible slots, each once. */
  lemma TurnedEligible(slots: Slots, now: Instant, cursors: seq<nat>, x: nat)
    requires |cursors| == PREFIXES && Eligible(slots, now, x)
    ensures Occupied(slots, x) && var start := Turned(slots, now, cursors, PREFIXES)[PrefixOf(NodeAt(slots, x))];
      x in start && NoRepeats(start)
  {
    EligibleOccupied(slots, now, x);
    var p := PrefixOf(NodeAt(slots, x));
    var stratum := Stratum(slots, now, p, |slots|);
    StratumIn(slots, now, p, |slots|);
    StratumAscends(slots, now, p, |slots|);
    hide Stratum, PrefixOf, Eligible;
    assert x in stratum;
    RotatedUnique(stratum, cursors[p] % |stratum|);
  }

  lemma {:induction false} SubnetsIn(nodes: seq<Node>, more: seq<Node>)
    requires nodes <= more
    ensures SubnetsOf(nodes) <= SubnetsOf(more)
  {
    forall s | s in SubnetsOf(nodes) ensures s in SubnetsOf(more) {
      var i :| 0 <= i < |nodes| && SubnetOf(nodes[i].addr) == s;
      assert more[i] == nodes[i];
    }
  }

  /** A pick in the second pass brings a new subnet; once that pass is over nothing left does. */
  lemma FillsWhile(slots: Slots, now: Instant, limit: nat, order: seq<nat>, cursors: seq<nat>, output: seq<Node>,
                   picked: seq<nat>, filled: nat, j: nat)
    requires IsSample(slots, now, limit, order, cursors, output, picked, filled)
    requires SmallerOf(|order|, |output|) <= j < |output|
    ensures Left(slots, now, picked[..j], picked[j])
    ensures j < filled <==> exists x :: IsNews(slots, now, output[..j], picked[..j], x)
    ensures j < filled ==> IsNews(slots, now, output[..j], picked[..j], picked[j])
  {
    hide EligibleSlots, FillRun, RestRun, SubnetsOf, PrefixOf, SeedAt, Turned;
    assert picked[j] in picked;
    assert forall i :: 0 <= i < j ==> picked[..j][i] == picked[i];
    if j < filled {
      assert output[..filled][..j] == output[..j] && output[..filled][j] == output[j];
      assert IsNews(slots, now, output[..j], picked[..j], picked[j]);
    } else {
      SubnetsIn(output[..filled], output[..j]);
    }
  }

  /** Two slots that would each be picked rather than the other are one. */
  lemma SamePick(slots: Slots, now: Instant, order: seq<nat>, cursors: seq<nat>, since: seq<Node>, y: nat, z: nat)
    requires |cursors| == PREFIXES && Eligible(slots, now, y) && Eligible(slots, now, z)
    requires Before(slots, order, Turned(slots, now, cursors, PREFIXES), since, y, z)
    requires Before(slots, order, Turned(slots, now, cursors, PREFIXES), since, z, y)
    ensures y == z
  {
    TurnedEligible(slots, now, cursors, y);
    TurnedEligible(slots, now, cursors, z);
    hide Turned, PrefixOf, Eligible, Rank;
    var p := PrefixOf(NodeAt(slots, y));
    if p == PrefixOf(NodeAt(slots, z)) && y != z {
      RanksDiffer(Turned(slots, now, cursors, PREFIXES)[p], y, z);
    }
  }

  lemma PickFilling(slots: Slots, now: Instant, limit: nat, order: seq<nat>, cursors: seq<nat>, output: seq<Node>,
                    picked: seq<nat>, filled: nat, j: nat)
    requires IsSample(slots, now, limit, order, cursors, output, picked, filled)
    requires SmallerOf(|order|, |output|) <= j < |output|
    ensures var start := Turned(slots, now, cursors, PREFIXES);
      if j < filled
      then FillPick(slots, now, order, start, output[..j], output[SmallerOf(|order|, |output|)..j], picked[..j],
                    picked[j])
      else RestPick(slots, now, order, start, output[filled..j], picked[..j], picked[j])
  {
    hide EligibleSlots, FillPick, RestPick, SubnetsOf, PrefixOf, SeedAt, Turned, Eligible, Diverse, Lists;
    if j < filled {
      var n := SmallerOf(|order|, |output|);
      assert output[..filled][..j] == output[..j] && output[..filled][n..j] == output[n..j];
      assert picked[..filled][..j] == picked[..j] && picked[..filled][j] == picked[j];
      assert FillPick(slots, now, order, Turned(slots, now, cursors, PREFIXES), output[..filled][..j],
                      output[..filled][n..j], picked[..filled][..j], picked[..filled][j]);
    } else {
      assert RestPick(slots, now, order, Turned(slots, now, cursors, PREFIXES), output[filled..j], picked[..j],
                      picked[j]);
    }
  }

  /** What was picked decides what is picked next. */
  lemma NextPick(slots: Slots, now: Instant, limit: nat, order: seq<nat>, cursors: seq<nat>, output: seq<Node>,
                 picked: seq<nat>, filled: nat, output': seq<Node>, picked': seq<nat>, filled': nat, j: nat)
    requires IsSample(slots, now, limit, order, cursors, output, picked, filled)
    requires IsSample(slots, now, limit, order, cursors, output', picked', filled')
    requires j < |output| && |output'| == |output| && output'[..j] == output[..j] && picked'[..j] == picked[..j]
    requires SmallerOf(|order|, |output|) <= j && SmallerOf(filled, j) == SmallerOf(filled', j)
    ensures picked'[j] == picked[j] && SmallerOf(filled, j + 1) == SmallerOf(filled', j + 1)
  {
    FillsWhile(slots, now, limit, order, cursors, output, picked, filled, j);
    FillsWhile(slots, now, limit, order, cursors, output', picked', filled', j);
    PickFilling(slots, now, limit, order, cursors, output, picked, filled, j);
    PickFilling(slots, now, limit, order, cursors, output', picked', filled', j);
    assert |cursors| == PREFIXES;
    hide IsSample, Before, Turned, Eligible, SubnetsOf;
    var from := if j < filled then SmallerOf(|order|, |output|) else filled;
    assert output'[from..j] == output[from..j] by {
      assert output'[..j][from..] == output'[from..j] && output[..j][from..] == output[from..j];
    }
    SamePick(slots, now, order, cursors, output[from..j], picked[j], picked'[j]);
  }

  lemma SeedPick(slots: Slots, now: Instant, limit: nat, order: seq<nat>, cursors: seq<nat>, output: seq<Node>,
                 picked: seq<nat>, filled: nat, j: nat)
    requires IsSample(slots, now, limit, order, cursors, output, picked, filled)
    requires j < SmallerOf(|order|, |output|)
    ensures j < |picked| && SeedAt(slots, now, order[j], cursors, picked[j])
  {
    hide EligibleSlots, FillRun, RestRun, SubnetsOf, SeedAt, Turned, Eligible, Diverse;
  }

  lemma SampleParts(slots: Slots, now: Instant, limit: nat, order: seq<nat>, cursors: seq<nat>, output: seq<Node>,
                    picked: seq<nat>, filled: nat)
    requires IsSample(slots, now, limit, order, cursors, output, picked, filled)
    ensures |output| == |picked| == SmallerOf(limit, |EligibleSlots(slots, now)|)
    ensures SmallerOf(|order|, |output|) <= filled <= |output|
    ensures forall i :: 0 <= i < |output| ==> Occupied(slots, picked[i]) && output[i] == NodeAt(slots, picked[i])
  {
    hide EligibleSlots, FillRun, RestRun, SubnetsOf, SeedAt, Turned, Eligible, Diverse;
  }

  lemma {:induction false} SameUpTo(slots: Slots, now: Instant, limit: nat, order: seq<nat>, cursors: seq<nat>,
                                    output: seq<Node>, picked: seq<nat>, filled: nat, output': seq<Node>,
                                    picked': seq<nat>, filled': nat, j: nat)
    requires IsSample(slots, now, limit, order, cursors, output, picked, filled)
    requires IsSample(slots, now, limit, order, cursors, output', picked', filled')
    requires |output| == |output'| == |picked| == |picked'| && j <= |output|
    ensures output'[..j] == output[..j] && picked'[..j] == picked[..j]
    ensures SmallerOf(filled, j) == SmallerOf(filled', j)
  {
    hide IsSample;
    if j == 0 {
    } else {
      SameUpTo(slots, now, limit, order, cursors, output, picked, filled, output', picked', filled', j - 1);
      SampleParts(slots, now, limit, order, cursors, output, picked, filled);
      SampleParts(slots, now, limit, order, cursors, output', picked', filled');
      if j - 1 < SmallerOf(|order|, |output|) {
        SeedPick(slots, now, limit, order, cursors, output, picked, filled, j - 1);
        SeedPick(slots, now, limit, order, cursors, output', picked', filled', j - 1);
      } else {
        NextPick(slots, now, limit, order, cursors, output, picked, filled, output', picked', filled', j - 1);
      }
      assert picked[..j] == picked[..j - 1] + [picked[j - 1]] && picked'[..j] == picked'[..j - 1] + [picked'[j - 1]];
      assert output[..j] == output[..j - 1] + [output[j - 1]] && output'[..j] == output'[..j - 1] + [output'[j - 1]];
    }
  }

  /** There is only one sample: what is promised of it leaves no choice. */
  lemma OneSample(slots: Slots, now: Instant, limit: nat, order: seq<nat>, cursors: seq<nat>, output: seq<Node>,
                  picked: seq<nat>, filled: nat, output': seq<Node>, picked': seq<nat>, filled': nat)
    requires IsSample(slots, now, limit, order, cursors, output, picked, filled)
    requires IsSample(slots, now, limit, order, cursors, output', picked', filled')
    ensures output' == output && picked' == picked && filled' == filled
  {
    hide IsSample;
    SampleParts(slots, now, limit, order, cursors, output, picked, filled);
    SampleParts(slots, now, limit, order, cursors, output', picked', filled');
    SameUpTo(slots, now, limit, order, cursors, output, picked, filled, output', picked', filled', |output|);
    assert output[..|output|] == output && output'[..|output|] == output';
    assert picked[..|output|] == picked && picked'[..|output|] == picked';
  }

  lemma {:induction false} TurnsBetween(nodes: seq<Node>, i: nat, j: nat, q: nat) returns (k: nat)
    requires i <= j <= |nodes| && Turns(nodes[..i], q) < Turns(nodes[..j], q)
    ensures i <= k < j && PrefixOf(nodes[k]) == q
    decreases j - i
  {
    hide PrefixOf;
    assert nodes[..j] == nodes[..j - 1] + [nodes[j - 1]];
    TurnsMore(nodes[..j - 1], nodes[j - 1], q);
    if PrefixOf(nodes[j - 1]) == q {
      k := j - 1;
    } else {
      k := TurnsBetween(nodes, i, j - 1, q);
    }
  }

  lemma {:induction false} TurnsLess(nodes: seq<Node>, i: nat, j: nat, p: nat)
    requires i <= j <= |nodes|
    ensures Turns(nodes[..i], p) <= Turns(nodes[..j], p)
    decreases j - i
  {
    hide PrefixOf;
    if i < j {
      assert nodes[..j] == nodes[..j - 1] + [nodes[j - 1]];
      TurnsMore(nodes[..j - 1], nodes[j - 1], p);
      TurnsLess(nodes, i, j - 1, p);
    }
  }

  /** Between two picks of the second pass for one prefix, every other prefix that still could bring a new subnet is
      picked. */
  lemma Alternates(slots: Slots, now: Instant, limit: nat, order: seq<nat>, cursors: seq<nat>, output: seq<Node>,
                   picked: seq<nat>, filled: nat, i: nat, j: nat, x: nat)
    returns (k: nat)
    requires IsSample(slots, now, limit, order, cursors, output, picked, filled)
    requires SmallerOf(|order|, |output|) <= i < j < filled && filled <= |output|
    requires IsNews(slots, now, output[..j], picked[..j], x)
    requires PrefixOf(output[i]) == PrefixOf(output[j]) != PrefixOf(NodeAt(slots, x))
    ensures i < k < j && PrefixOf(output[k]) == PrefixOf(NodeAt(slots, x))
  {
    hide IsSample, Turns, PrefixOf, SubnetsOf, Eligible, Rank, IsNews, Left;
    SampleParts(slots, now, limit, order, cursors, output, picked, filled);
    NewsOccupied(slots, now, output[..j], picked[..j], x);
    NewsBefore(slots, now, output, picked, i, j, x);
    AheadAt(slots, now, limit, order, cursors, output, picked, filled, i, x);
    AheadAt(slots, now, limit, order, cursors, output, picked, filled, j, x);
    var n, q, p := SmallerOf(|order|, |output|), PrefixOf(NodeAt(slots, x)), PrefixOf(output[i]);
    var since := output[n..];
    assert since[..i - n] == output[n..i] && since[..j - n] == output[n..j];
    assert since[..i - n + 1] == output[n..i] + [output[i]];
    TurnsMore(output[n..i], output[i], p);
    TurnsLess(since, i - n + 1, j - n, p);
    var m := TurnsBetween(since, i - n, j - n, q);
    k := n + m;
  }

  lemma AheadAt(slots: Slots, now: Instant, limit: nat, order: seq<nat>, cursors: seq<nat>, output: seq<Node>,
                picked: seq<nat>, filled: nat, j: nat, x: nat)
    requires IsSample(slots, now, limit, order, cursors, output, picked, filled)
    requires SmallerOf(|order|, |output|) <= j < filled && filled <= |output|
    requires IsNews(slots, now, output[..j], picked[..j], x) && PrefixOf(output[j]) != PrefixOf(NodeAt(slots, x))
    ensures Ahead(order, output[SmallerOf(|order|, |output|)..j], PrefixOf(output[j]), PrefixOf(NodeAt(slots, x)))
  {
    hide IsSample, Turned, PrefixOf, SubnetsOf, Eligible, Rank, Ahead, IsNews;
    SampleParts(slots, now, limit, order, cursors, output, picked, filled);
    PickFilling(slots, now, limit, order, cursors, output, picked, filled, j);
    NewsOccupied(slots, now, output[..j], picked[..j], x);
    assert output[j] == NodeAt(slots, picked[j]);
  }

  lemma NewsBefore(slots: Slots, now: Instant, output: seq<Node>, picked: seq<nat>, i: nat, j: nat, x: nat)
    requires i <= j <= |output| == |picked| && IsNews(slots, now, output[..j], picked[..j], x)
    ensures IsNews(slots, now, output[..i], picked[..i], x)
  {
    assert output[..i] <= output[..j];
    SubnetsIn(output[..i], output[..j]);
    assert forall m :: 0 <= m < i ==> picked[..i][m] == picked[..j][m];
  }
}
