/** The fixed-size ring of responsive nodes. Every occupied slot is scheduled for a revisit exactly once:
    in the intrusive ready list, or by a key of the time-ordered tree. */
module Reservoirs {
  import opened Common
  import opened Nodes

  /** A key of the revisit tree: due time, insertion number, slot. */
  datatype Key = Key(at: Instant, sequence: nat, slot: nat)

  predicate KeyLess(x: Key, y: Key) {
    || x.at < y.at
    || (x.at == y.at && (x.sequence < y.sequence || (x.sequence == y.sequence && x.slot < y.slot)))
  }

  /** What is remembered of a node, apart from how it is scheduled. */
  datatype Info = Info(node: Node, expiresAt: Instant, lastProbeAt: Instant, lastSuccessAt: Instant,
                       failures: nat, blockedUntil: Option<Instant>)

  datatype Entry = Entry(info: Info, revisitKey: Option<Key>, ready: bool, previous: Option<nat>, next: Option<nat>)

  type Slots = seq<Option<Entry>>

  predicate Occupied(slots: Slots, s: int) {
    0 <= s < |slots| && slots[s].Some?
  }

  // ---------- the ready list ----------

  function Before(ready: seq<nat>, i: nat): Option<nat>
    requires i < |ready|
  {
    if i == 0 then None else Some(ready[i - 1])
  }

  function After(ready: seq<nat>, i: nat): Option<nat>
    requires i < |ready|
  {
    if i == |ready| - 1 then None else Some(ready[i + 1])
  }

  ghost predicate Threaded(slots: Slots, ready: seq<nat>, i: nat)
    requires i < |ready|
  {
    && Occupied(slots, ready[i])
    && slots[ready[i]].value.ready
    && slots[ready[i]].value.previous == Before(ready, i)
    && slots[ready[i]].value.next == After(ready, i)
  }

  /** The links of the ready slots spell the sequence `ready`, and no other slot is marked ready. */
  ghost predicate ListOk(slots: Slots, ready: seq<nat>) {
    && (forall i, j :: 0 <= i < j < |ready| ==> ready[i] != ready[j])
    && (forall i :: 0 <= i < |ready| ==> Threaded(slots, ready, i))
    && (forall s :: Occupied(slots, s) && slots[s].value.ready ==> s in ready)
  }

  ghost predicate Ends(ready: seq<nat>, head: Option<nat>, tail: Option<nat>, len: nat) {
    && len == |ready|
    && head == (if ready == [] then None else Some(ready[0]))
    && tail == (if ready == [] then None else Some(ready[|ready| - 1]))
  }

  // ---------- the revisit tree ----------

  /** The tree holds exactly the keys that the slots name, and new keys will be different. */
  ghost predicate TreeOk(slots: Slots, revisits: set<Key>, sequence: nat) {
    && (forall k :: k in revisits ==>
          k.sequence < sequence && Occupied(slots, k.slot) && slots[k.slot].value.revisitKey == Some(k))
    && (forall s :: Occupied(slots, s) && slots[s].value.revisitKey.Some? ==>
          slots[s].value.revisitKey.value in revisits && slots[s].value.revisitKey.value.slot == s)
  }

  // ---------- the index ----------

  /** The address index is a bijection onto the occupied slots. */
  ghost predicate IndexOk(slots: Slots, index: map<Addr, nat>) {
    && (forall a :: a in index ==> Occupied(slots, index[a]) && slots[index[a]].value.info.node.addr == a)
    && (forall s :: Occupied(slots, s) ==>
          slots[s].value.info.node.addr in index && index[slots[s].value.info.node.addr] == s)
  }

  lemma {:induction false} InjectiveSize(m: map<Addr, nat>, n: nat)
    requires forall a :: a in m ==> m[a] < n
    requires forall a, b :: a in m && b in m && a != b ==> m[a] != m[b]
    ensures |m| <= n
  {
    if n == 0 {
      assert m.Keys == {};
    } else {
      if a :| a in m && m[a] == n - 1 {
        InjectiveSize(m - {a}, n - 1);
        assert m.Keys == (m - {a}).Keys + {a};
      } else {
        InjectiveSize(m, n - 1);
      }
    }
  }

  // ---------- schedules ----------

  /** Each occupied slot is in exactly one of the ready list and the tree; the reserved one in neither. */
  ghost predicate ScheduledOnce(slots: Slots, reserved: Option<nat>) {
    forall s :: Occupied(slots, s) ==>
      if reserved == Some(s) then !slots[s].value.ready && slots[s].value.revisitKey.None?
      else slots[s].value.ready != slots[s].value.revisitKey.Some?
  }

  /** The earliest time a node may be probed again. */
  function EligibleAt(info: Info, interval: nat): Instant {
    var rested := info.lastProbeAt + interval;
    if info.blockedUntil.Some? && info.blockedUntil.value > rested then info.blockedUntil.value else rested
  }

  /** Not ready, nor keyed, before it is eligible; backing off iff it has failures. */
  ghost predicate Timely(e: Entry, interval: nat, clock: Instant) {
    && (e.ready ==> EligibleAt(e.info, interval) <= clock)
    && (e.revisitKey.Some? ==> EligibleAt(e.info, interval) <= e.revisitKey.value.at)
    && (e.info.failures == 0 <==> e.info.blockedUntil.None?)
    && e.info.failures <= 5
  }

  ghost predicate NoneEarlyBut(slots: Slots, s: int, interval: nat, clock: Instant) {
    forall t :: Occupied(slots, t) && t != s ==> Timely(slots[t].value, interval, clock)
  }

  ghost predicate NoneEarly(slots: Slots, interval: nat, clock: Instant) {
    NoneEarlyBut(slots, -1, interval, clock)
  }

  ghost function Members(slots: Slots, index: map<Addr, nat>): (m: map<Addr, Info>)
    requires IndexOk(slots, index)
  {
    map a | a in index :: slots[index[a]].value.info
  }

  // ---------- unlinking ----------

  function SetNext(slots: Slots, s: Option<nat>, next: Option<nat>): (r: Slots)
    requires s.Some? ==> Occupied(slots, s.value)
    ensures |r| == |slots|
  {
    if s.None? then slots else slots[s.value := Some(slots[s.value].value.(next := next))]
  }

  function SetPrevious(slots: Slots, s: Option<nat>, previous: Option<nat>): (r: Slots)
    requires s.Some? ==> Occupied(slots, s.value)
    ensures |r| == |slots|
  {
    if s.None? then slots else slots[s.value := Some(slots[s.value].value.(previous := previous))]
  }

  function Loose(e: Entry): Entry {
    e.(ready := false, previous := None, next := None, revisitKey := None)
  }

  ghost function Cut(ready: seq<nat>, p: nat): seq<nat>
    requires p < |ready|
  {
    ready[..p] + ready[p + 1..]
  }

  /** The slots once `s` is bypassed by its neighbours and loosened. */
  ghost function Unlinked(slots: Slots, s: nat): (r: Slots)
    requires Occupied(slots, s)
    requires slots[s].value.previous.Some? ==> Occupied(slots, slots[s].value.previous.value)
    requires slots[s].value.next.Some? ==> Occupied(slots, slots[s].value.next.value)
  {
    var e := slots[s].value;
    var bypassed := SetPrevious(SetNext(slots, e.previous, e.next), e.next, e.previous);
    bypassed[s := Some(Loose(bypassed[s].value))]
  }

  lemma NeighboursOccupied(slots: Slots, ready: seq<nat>, p: nat)
    requires ListOk(slots, ready) && p < |ready|
    ensures Occupied(slots, ready[p]) && Threaded(slots, ready, p)
    ensures var e := slots[ready[p]].value;
      && (e.previous.Some? ==> Occupied(slots, e.previous.value) && e.previous.value != ready[p])
      && (e.next.Some? ==> Occupied(slots, e.next.value) && e.next.value != ready[p])
  {
    assert Threaded(slots, ready, p);
    if p > 0 { assert Threaded(slots, ready, p - 1); }
    if p < |ready| - 1 { assert Threaded(slots, ready, p + 1); }
  }

  /** Bypassing position `p` threads the rest. */
  lemma UnlinkOk(slots: Slots, ready: seq<nat>, p: nat)
    requires ListOk(slots, ready) && p < |ready|
    ensures Occupied(slots, ready[p])
    ensures slots[ready[p]].value.previous.Some? ==> Occupied(slots, slots[ready[p]].value.previous.value)
    ensures slots[ready[p]].value.next.Some? ==> Occupied(slots, slots[ready[p]].value.next.value)
    ensures ListOk(Unlinked(slots, ready[p]), Cut(ready, p))
  {
    NeighboursOccupied(slots, ready, p);
    var after, rest := Unlinked(slots, ready[p]), Cut(ready, p);
    forall i | 0 <= i < |rest| ensures Threaded(after, rest, i) {
      UnlinkThread(slots, ready, p, if i < p then i else i + 1);
    }
    hide Threaded;
    CutDistinct(ready, p);
    forall t | Occupied(after, t) && after[t].value.ready ensures t in rest {
      assert Occupied(slots, t) && slots[t].value.ready;
      CutKeeps(ready, p, t);
    }
  }

  lemma CutDistinct(ready: seq<nat>, p: nat)
    requires p < |ready| && forall i, j :: 0 <= i < j < |ready| ==> ready[i] != ready[j]
    ensures var rest := Cut(ready, p);
      && ready[p] !in rest && forall i, j :: 0 <= i < j < |rest| ==> rest[i] != rest[j]
  {
  }

  lemma CutKeeps(ready: seq<nat>, p: nat, t: nat)
    requires p < |ready| && t in ready && t != ready[p]
    ensures t in Cut(ready, p)
  {
    var j :| 0 <= j < |ready| && ready[j] == t;
    assert Cut(ready, p)[if j < p then j else j - 1] == t;
  }

  lemma UnlinkThread(slots: Slots, ready: seq<nat>, p: nat, j: nat)
    requires ListOk(slots, ready) && p < |ready| && j < |ready| && j != p
    requires Occupied(slots, ready[p])
    requires slots[ready[p]].value.previous.Some? ==> Occupied(slots, slots[ready[p]].value.previous.value)
    requires slots[ready[p]].value.next.Some? ==> Occupied(slots, slots[ready[p]].value.next.value)
    ensures Threaded(Unlinked(slots, ready[p]), Cut(ready, p), if j < p then j else j - 1)
  {
    NeighboursOccupied(slots, ready, p);
    NeighboursOccupied(slots, ready, j);
    var i := if j < p then j else j - 1;
    assert Cut(ready, p)[i] == ready[j];
    assert forall k :: 0 <= k < |ready| && k != j ==> ready[k] != ready[j];
  }

  lemma UnlinkRelinks(slots: Slots, ready: seq<nat>, p: nat)
    requires ListOk(slots, ready) && p < |ready|
    ensures Occupied(slots, ready[p])
    ensures slots[ready[p]].value.previous.Some? ==> Occupied(slots, slots[ready[p]].value.previous.value)
    ensures slots[ready[p]].value.next.Some? ==> Occupied(slots, slots[ready[p]].value.next.value)
    ensures Relinked(slots, Unlinked(slots, ready[p]), ready[p])
  {
    NeighboursOccupied(slots, ready, p);
  }

  lemma EndsCut(ready: seq<nat>, p: nat, head: Option<nat>, tail: Option<nat>, len: nat)
    requires p < |ready| && Ends(ready, head, tail, len)
    ensures Ends(Cut(ready, p), if Before(ready, p).None? then After(ready, p) else head,
                 if After(ready, p).None? then Before(ready, p) else tail, len - 1)
  {
  }

  ghost function Last(ready: seq<nat>): Option<nat> {
    if ready == [] then None else Some(ready[|ready| - 1])
  }

  /** The slots once `s` is linked behind the tail. */
  ghost function Linked(slots: Slots, ready: seq<nat>, s: nat): (r: Slots)
    requires Occupied(slots, s) && (ready != [] ==> Occupied(slots, Last(ready).value))
    ensures |r| == |slots|
  {
    SetNext(slots[s := Some(slots[s].value.(ready := true, previous := Last(ready), next := None))], Last(ready),
        Some(s))
  }

  lemma TailOccupied(slots: Slots, ready: seq<nat>)
    requires ListOk(slots, ready) && ready != []
    ensures Occupied(slots, Last(ready).value)
  {
    assert Threaded(slots, ready, |ready| - 1);
  }

  lemma LinkThread(slots: Slots, ready: seq<nat>, s: nat, i: nat)
    requires Occupied(slots, s) && i < |ready| && s !in ready
    requires Occupied(slots, Last(ready).value) && Threaded(slots, ready, i)
    requires forall i, j :: 0 <= i < j < |ready| ==> ready[i] != ready[j]
    ensures Threaded(Linked(slots, ready, s), ready + [s], i)
  {
    var after := Linked(slots, ready, s);
    if i < |ready| - 1 {
      assert ready[i] != ready[|ready| - 1] && after[ready[i]] == slots[ready[i]];
    }
  }

  lemma ReadyIsListed(slots: Slots, ready: seq<nat>, s: nat)
    requires ListOk(slots, ready) && Occupied(slots, s)
    ensures s in ready <==> slots[s].value.ready
  {
    if s in ready {
      var i :| 0 <= i < |ready| && ready[i] == s;
      assert Threaded(slots, ready, i);
    }
  }

  /** Appending a loose slot at the tail threads it. */
  lemma LinkOk(slots: Slots, ready: seq<nat>, s: nat)
    requires ListOk(slots, ready) && Occupied(slots, s) && !slots[s].value.ready
    ensures ready != [] ==> Occupied(slots, Last(ready).value)
    ensures ListOk(Linked(slots, ready, s), ready + [s])
  {
    ReadyIsListed(slots, ready, s);
    if ready != [] { TailOccupied(slots, ready); }
    var after, longer := Linked(slots, ready, s), ready + [s];
    forall i | 0 <= i < |longer| ensures Threaded(after, longer, i) {
      if i < |ready| { LinkThread(slots, ready, s, i); }
    }
    hide Threaded;
    forall t | Occupied(after, t) && after[t].value.ready ensures t in longer {
      if t != s { assert Occupied(slots, t) && slots[t].value.ready; }
    }
  }

  // ---------- what relinking one slot leaves alone ----------

  /** Only links change, and only slot `s` may change how it is scheduled. */
  ghost predicate Relinked(slots: Slots, after: Slots, s: nat) {
    && |after| == |slots|
    && (forall t :: Occupied(after, t) <==> Occupied(slots, t))
    && (forall t :: Occupied(slots, t) ==> after[t].value.info == slots[t].value.info)
    && (forall t :: Occupied(slots, t) && t != s ==>
          after[t].value.ready == slots[t].value.ready && after[t].value.revisitKey == slots[t].value.revisitKey)
  }

  /** No slot but one has changed, links aside. */
  ghost predicate OthersKept(was: Slots, slots: Slots, s: nat) {
    && |slots| == |was|
    && (forall t :: t != s ==> (Occupied(slots, t) <==> Occupied(was, t)))
    && (forall t :: Occupied(was, t) && t != s ==>
          && slots[t].value.info == was[t].value.info && slots[t].value.ready == was[t].value.ready
          && slots[t].value.revisitKey == was[t].value.revisitKey)
  }

  /** A slot is ready once its time has come, and before that has a key for that time. */
  ghost predicate DueAt(slots: Slots, s: nat, due: Instant, now: Instant) {
    && Occupied(slots, s) && (slots[s].value.ready <==> due <= now)
    && (if due <= now then slots[s].value.revisitKey.None?
        else slots[s].value.revisitKey.Some? && slots[s].value.revisitKey.value.at == due)
  }

  /** One slot was scheduled anew, at the end of the ready list if its time has come. */
  ghost predicate Moved(was: Slots, wasReady: seq<nat>, slots: Slots, ready: seq<nat>, s: nat, due: Instant,
                        now: Instant) {
    && OthersKept(was, slots, s) && DueAt(slots, s, due, now)
    && ready == Dropped(wasReady, s) + (if due <= now then [s] else [])
  }

  lemma MovedAfterInfo(was: Slots, wasReady: seq<nat>, slots: Slots, ready: seq<nat>, s: nat, info: Info, due: Instant,
                       now: Instant)
    requires Occupied(was, s) && Moved(WithInfo(was, s, info), wasReady, slots, ready, s, due, now)
    ensures Moved(was, wasReady, slots, ready, s, due, now)
  {
    hide Dropped;
    assert forall t :: Occupied(was, t) <==> Occupied(WithInfo(was, s, info), t);
  }

  lemma MovedAfterFill(was: Slots, slots: Slots, s: nat, info: Info)
    requires OthersKept(was, slots, s) && s < |slots|
    ensures OthersKept(was, slots[s := Some(Entry(info, None, false, None, None))], s)
  {
  }

  lemma EmptyNotReady(slots: Slots, ready: seq<nat>, s: nat)
    requires ListOk(slots, ready) && s < |slots| && slots[s].None?
    ensures Dropped(ready, s) == ready && OthersKept(slots, slots, s)
  {
    forall i | 0 <= i < |ready| ensures ready[i] != s {
      assert Threaded(slots, ready, i);
    }
  }

  /** A slot is in the ready list once, so that dropping it twice is dropping it once. */
  lemma NotTwice(slots: Slots, ready: seq<nat>, s: nat)
    requires ListOk(slots, ready)
    ensures Dropped(Dropped(ready, s), s) == Dropped(ready, s)
  {
  }

  lemma ErasedKept(slots: Slots, s: nat)
    requires s < |slots|
    ensures OthersKept(slots, slots[s := None], s)
  {
  }

  lemma KeptTwice(a: Slots, b: Slots, c: Slots, s: nat)
    requires OthersKept(a, b, s) && OthersKept(b, c, s)
    ensures OthersKept(a, c, s)
  {
  }

  lemma RelinkedKept(was: Slots, slots: Slots, s: nat)
    requires Relinked(was, slots, s)
    ensures OthersKept(was, slots, s)
  {
  }

  /** An occupied slot whose node may be visited at `now`. */
  ghost predicate DueEntry(slots: Slots, s: nat, interval: nat, now: Instant) {
    && Occupied(slots, s) && EligibleAt(slots[s].value.info, interval) <= now
    && (slots[s].value.info.failures == 0 <==> slots[s].value.info.blockedUntil.None?)
    && slots[s].value.info.failures <= 5
  }

  lemma ReadyTimely(slots: Slots, after: Slots, s: nat, interval: nat, now: Instant)
    requires Relinked(slots, after, s) && DueEntry(slots, s, interval, now)
    requires Occupied(after, s) && after[s].value.revisitKey.None?
    ensures Timely(after[s].value, interval, now)
  {
  }

  lemma RelinkedTwice(a: Slots, b: Slots, c: Slots, s: nat)
    requires Relinked(a, b, s) && Relinked(b, c, s)
    ensures Relinked(a, c, s)
  {
  }

  lemma RelinkKeepsIndex(slots: Slots, after: Slots, s: nat, index: map<Addr, nat>)
    requires Relinked(slots, after, s) && IndexOk(slots, index)
    ensures IndexOk(after, index) && Members(after, index) == Members(slots, index)
  {
    assert forall a :: a in index ==> Occupied(slots, index[a]);
  }

  /** Scheduling the reserved or a scheduled slot once leaves every slot scheduled once. */
  lemma RelinkSchedules(slots: Slots, after: Slots, s: nat, reserved: Option<nat>)
    requires Relinked(slots, after, s) && ScheduledOnce(slots, reserved) && (reserved.Some? ==> reserved.value == s)
    requires Occupied(after, s) && after[s].value.ready != after[s].value.revisitKey.Some?
    ensures ScheduledOnce(after, None)
  {
    forall t | Occupied(after, t) ensures after[t].value.ready != after[t].value.revisitKey.Some? {
      assert Occupied(slots, t);
    }
  }

  lemma RelinkTimely(slots: Slots, after: Slots, s: nat, interval: nat, clock: Instant, now: Instant)
    requires Relinked(slots, after, s) && NoneEarlyBut(slots, s, interval, clock) && clock <= now
    requires Occupied(after, s) && Timely(after[s].value, interval, now)
    ensures NoneEarly(after, interval, now)
  {
    forall t | Occupied(after, t) ensures Timely(after[t].value, interval, now) {
      if t != s { assert Occupied(slots, t) && Timely(slots[t].value, interval, clock); }
    }
  }

  // ---------- the tree under relinking ----------

  lemma TreeDrop(slots: Slots, revisits: set<Key>, sequence: nat, after: Slots, s: nat)
    requires TreeOk(slots, revisits, sequence) && Relinked(slots, after, s)
    requires Occupied(slots, s) && after[s].value.revisitKey.None?
    ensures TreeOk(after, match slots[s].value.revisitKey case Some(k) => revisits - {k} case None => revisits,
        sequence)
  {
    var key := slots[s].value.revisitKey;
    var rest := match key case Some(k) => revisits - {k} case None => revisits;
    forall k | k in rest
      ensures k.sequence < sequence && Occupied(after, k.slot) && after[k.slot].value.revisitKey == Some(k)
    {
      assert Occupied(slots, k.slot) && k.slot != s;
    }
    forall t | Occupied(after, t) && after[t].value.revisitKey.Some?
      ensures after[t].value.revisitKey.value in rest && after[t].value.revisitKey.value.slot == t {
      assert Occupied(slots, t) && t != s;
    }
  }

  lemma TreeAdd(slots: Slots, revisits: set<Key>, sequence: nat, s: nat, at: Instant)
    requires TreeOk(slots, revisits, sequence) && Occupied(slots, s) && slots[s].value.revisitKey.None?
    ensures var key := Key(at, sequence, s);
      TreeOk(slots[s := Some(slots[s].value.(revisitKey := Some(key)))], revisits + {key}, sequence + 1)
  {
    var key := Key(at, sequence, s);
    var after := slots[s := Some(slots[s].value.(revisitKey := Some(key)))];
    forall k | k in revisits + {key}
      ensures k.sequence < sequence + 1 && Occupied(after, k.slot) && after[k.slot].value.revisitKey == Some(k) {
      if k != key { assert Occupied(slots, k.slot); }
    }
    forall t | Occupied(after, t) && after[t].value.revisitKey.Some?
      ensures after[t].value.revisitKey.value in revisits + {key} && after[t].value.revisitKey.value.slot == t {
      assert Occupied(slots, t);
    }
  }

  lemma TreeSame(slots: Slots, revisits: set<Key>, sequence: nat, after: Slots, s: nat)
    requires TreeOk(slots, revisits, sequence) && Relinked(slots, after, s)
    requires Occupied(slots, s) && after[s].value.revisitKey == slots[s].value.revisitKey
    ensures TreeOk(after, revisits, sequence)
  {
    forall k | k in revisits ensures Occupied(after, k.slot) && after[k.slot].value.revisitKey == Some(k) {
      assert Occupied(slots, k.slot);
    }
    forall t | Occupied(after, t) && after[t].value.revisitKey.Some?
      ensures after[t].value.revisitKey.value in revisits && after[t].value.revisitKey.value.slot == t {
      assert Occupied(slots, t);
    }
  }

  ghost predicate SameLinks(e: Entry, f: Option<Entry>) {
    && f.Some? && f.value.ready == e.ready
    && (e.ready ==> f.value.previous == e.previous && f.value.next == e.next)
  }

  lemma ListSame(slots: Slots, ready: seq<nat>, after: Slots)
    requires ListOk(slots, ready) && |after| == |slots|
    requires forall t :: Occupied(after, t) <==> Occupied(slots, t)
    requires forall t :: Occupied(slots, t) ==> SameLinks(slots[t].value, after[t])
    ensures ListOk(after, ready)
  {
    forall i | 0 <= i < |ready| ensures Threaded(after, ready, i) {
      assert Threaded(slots, ready, i);
    }
    forall t | Occupied(after, t) && after[t].value.ready ensures t in ready {
      assert Occupied(slots, t);
    }
  }

  /** The list without `s`. */
  ghost function Dropped(ready: seq<nat>, s: nat): seq<nat> {
    if s in ready then
      var p :| 0 <= p < |ready| && ready[p] == s;
      Cut(ready, p)
    else ready
  }

  lemma DroppedAt(ready: seq<nat>, s: nat) returns (p: nat)
    requires s in ready
    ensures p < |ready| && ready[p] == s && Dropped(ready, s) == Cut(ready, p)
  {
    p :| 0 <= p < |ready| && ready[p] == s && Dropped(ready, s) == Cut(ready, p);
  }

  lemma LoosenOk(slots: Slots, ready: seq<nat>, s: nat)
    requires ListOk(slots, ready) && Occupied(slots, s) && !slots[s].value.ready
    ensures var after := slots[s := Some(Loose(slots[s].value))];
      ListOk(after, ready) && Relinked(slots, after, s) && Dropped(ready, s) == ready
  {
    ListSame(slots, ready, slots[s := Some(Loose(slots[s].value))]);
    ReadyIsListed(slots, ready, s);
  }

  // ---------- whole steps ----------

  /** Everything that is not the list or the tree survives rescheduling one slot. */
  lemma Rescheduled(slots: Slots, after: Slots, s: nat, index: map<Addr, nat>, reserved: Option<nat>, interval: nat,
                    clock: Instant, now: Instant)
    requires Relinked(slots, after, s) && IndexOk(slots, index) && clock <= now
    requires ScheduledOnce(slots, reserved) && (reserved.Some? ==> reserved.value == s)
    requires NoneEarlyBut(slots, s, interval, clock)
    requires Occupied(after, s) && after[s].value.ready != after[s].value.revisitKey.Some?
    requires Timely(after[s].value, interval, now)
    ensures IndexOk(after, index) && Members(after, index) == Members(slots, index)
    ensures ScheduledOnce(after, None) && NoneEarly(after, interval, now)
  {
    RelinkKeepsIndex(slots, after, s, index);
    RelinkSchedules(slots, after, s, reserved);
    RelinkTimely(slots, after, s, interval, clock, now);
  }

  lemma NoneEarlyLater(slots: Slots, s: int, interval: nat, clock: Instant, now: Instant)
    requires NoneEarly(slots, interval, clock) && clock <= now
    ensures NoneEarly(slots, interval, now) && NoneEarlyBut(slots, s, interval, now)
  {
    forall t | Occupied(slots, t) ensures Timely(slots[t].value, interval, now) {
      assert Timely(slots[t].value, interval, clock);
    }
  }

  function WithInfo(slots: Slots, s: nat, info: Info): (r: Slots)
    requires Occupied(slots, s)
  {
    slots[s := Some(slots[s].value.(info := info))]
  }

  /** New information about a slot's node leaves the wiring alone. */
  lemma InfoWired(slots: Slots, ready: seq<nat>, revisits: set<Key>, sequence: nat, s: nat, info: Info)
    requires ListOk(slots, ready) && TreeOk(slots, revisits, sequence) && Occupied(slots, s)
    ensures ListOk(WithInfo(slots, s, info), ready) && TreeOk(WithInfo(slots, s, info), revisits, sequence)
  {
    var after := WithInfo(slots, s, info);
    ListSame(slots, ready, after);
    hide ListOk;
    forall k | k in revisits ensures Occupied(after, k.slot) && after[k.slot].value.revisitKey == Some(k) {
      assert Occupied(slots, k.slot);
    }
    forall t | Occupied(after, t) && after[t].value.revisitKey.Some?
      ensures after[t].value.revisitKey.value in revisits && after[t].value.revisitKey.value.slot == t {
      assert Occupied(slots, t);
    }
  }

  lemma InfoIndexed(slots: Slots, index: map<Addr, nat>, s: nat, info: Info, reserved: Option<nat>, interval: nat,
                    clock: Instant)
    requires IndexOk(slots, index) && ScheduledOnce(slots, reserved) && NoneEarly(slots, interval, clock)
    requires Occupied(slots, s) && info.node.addr == slots[s].value.info.node.addr
    ensures IndexOk(WithInfo(slots, s, info), index) && ScheduledOnce(WithInfo(slots, s, info), reserved)
    ensures NoneEarlyBut(WithInfo(slots, s, info), s, interval, clock)
    ensures Members(WithInfo(slots, s, info), index) == Members(slots, index)[info.node.addr := info]
  {
    var after := WithInfo(slots, s, info);
    forall t | Occupied(after, t)
      ensures after[t].value.info.node.addr in index && index[after[t].value.info.node.addr] == t
      ensures t != s ==> Timely(after[t].value, interval, clock)
      ensures if reserved == Some(t) then !after[t].value.ready && after[t].value.revisitKey.None?
              else after[t].value.ready != after[t].value.revisitKey.Some?
    {
      assert Occupied(slots, t);
      assert t != s ==> Timely(slots[t].value, interval, clock);
    }
    forall a | a in index ensures Occupied(after, index[a]) && after[index[a]].value.info.node.addr == a {
      assert Occupied(slots, index[a]);
    }
  }

  /** The reply to a probe: refreshed liveness, and an end to any backoff. */
  function Refreshed(was: Info, node: Node, now: Instant, ttl: nat): Info {
    was.(node := node, expiresAt := now + ttl, lastSuccessAt := now, failures := 0, blockedUntil := None)
  }

  function Fresh(node: Node, now: Instant, probedAt: Instant, ttl: nat): Info {
    Info(node, now + ttl, probedAt, now, 0, None)
  }

  /** Five seconds after the first failure in a row, doubling up to a minute. */
  function Backoff(failures: nat): (d: nat)
    ensures d <= 60 * SECONDS
    ensures failures >= 1 ==> d >= 5 * SECONDS
  {
    if failures <= 1 then 5 * SECONDS else if failures == 2 then 10 * SECONDS
    else if failures == 3 then 20 * SECONDS else if failures == 4 then 40 * SECONDS else 60 * SECONDS
  }

  predicate Blocked(info: Info, now: Instant) {
    info.blockedUntil.Some? && info.blockedUntil.value > now
  }

  /** The wait starts at five seconds and doubles with every further failure, up to a minute. */
  lemma BackoffDoubles(failures: nat)
    requires failures > 0
    ensures Backoff(1) == 5 * SECONDS
    ensures Backoff(failures + 1) ==
      if 2 * Backoff(failures) < 60 * SECONDS then 2 * Backoff(failures) else 60 * SECONDS
  {
    assert failures == 1 || failures == 2 || failures == 3 || failures == 4 || failures >= 5;
  }

  function Failed(info: Info, now: Instant): Info {
    var failures := if info.failures < 5 then info.failures + 1 else 5;
    info.(failures := failures, blockedUntil := Some(now + Backoff(failures)))
  }

  /** Erasing a loose slot and its index entry. */
  lemma EraseOk(slots: Slots, ready: seq<nat>, revisits: set<Key>, sequence: nat, s: nat)
    requires ListOk(slots, ready) && TreeOk(slots, revisits, sequence) && Occupied(slots, s)
    requires !slots[s].value.ready && slots[s].value.revisitKey.None?
    ensures ListOk(slots[s := None], ready) && TreeOk(slots[s := None], revisits, sequence)
  {
    var after := slots[s := None];
    ReadyIsListed(slots, ready, s);
    forall i | 0 <= i < |ready| ensures Threaded(after, ready, i) {
      assert Threaded(slots, ready, i) && ready[i] != s;
    }
    forall t | Occupied(after, t) ensures Occupied(slots, t) {
    }
    forall k | k in revisits ensures Occupied(after, k.slot) && after[k.slot].value.revisitKey == Some(k) {
      assert Occupied(slots, k.slot) && k.slot != s;
    }
  }

  lemma EraseIndex(slots: Slots, index: map<Addr, nat>, s: nat, interval: nat, clock: Instant)
    requires IndexOk(slots, index) && Occupied(slots, s) && ScheduledOnce(slots, Some(s))
    requires NoneEarly(slots, interval, clock)
    ensures var after, rest := slots[s := None], index - {slots[s].value.info.node.addr};
      && IndexOk(after, rest) && ScheduledOnce(after, None) && NoneEarly(after, interval, clock)
      && Members(after, rest) == Members(slots, index) - {slots[s].value.info.node.addr}
  {
    var after, rest := slots[s := None], index - {slots[s].value.info.node.addr};
    forall t | Occupied(after, t)
      ensures after[t].value.info.node.addr in rest && rest[after[t].value.info.node.addr] == t
      ensures Timely(after[t].value, interval, clock)
      ensures after[t].value.ready != after[t].value.revisitKey.Some?
    {
      assert Occupied(slots, t) && t != s && Timely(slots[t].value, interval, clock);
    }
    forall a | a in rest ensures Occupied(after, rest[a]) && after[rest[a]].value.info.node.addr == a {
      assert Occupied(slots, index[a]);
    }
  }

  /** Filling an empty slot with a node that is not indexed; the slot is then still to be scheduled. */
  lemma FillOk(slots: Slots, ready: seq<nat>, revisits: set<Key>, sequence: nat, s: nat, info: Info)
    requires ListOk(slots, ready) && TreeOk(slots, revisits, sequence) && s < |slots| && slots[s].None?
    ensures var after := slots[s := Some(Entry(info, None, false, None, None))];
      ListOk(after, ready) && TreeOk(after, revisits, sequence)
  {
    var after := slots[s := Some(Entry(info, None, false, None, None))];
    forall i | 0 <= i < |ready| ensures Threaded(after, ready, i) {
      assert Threaded(slots, ready, i);
    }
    forall t | Occupied(after, t) && (after[t].value.ready || after[t].value.revisitKey.Some?)
      ensures Occupied(slots, t)
    {
    }
    forall k | k in revisits ensures Occupied(after, k.slot) && after[k.slot].value.revisitKey == Some(k) {
      assert Occupied(slots, k.slot);
    }
  }

  lemma FillIndex(slots: Slots, index: map<Addr, nat>, s: nat, info: Info, interval: nat, clock: Instant)
    requires IndexOk(slots, index) && s < |slots| && slots[s].None? && info.node.addr !in index
    requires ScheduledOnce(slots, None) && NoneEarly(slots, interval, clock)
    ensures var after, more := slots[s := Some(Entry(info, None, false, None, None))], index[info.node.addr := s];
      && IndexOk(after, more) && ScheduledOnce(after, Some(s)) && NoneEarlyBut(after, s, interval, clock)
      && Members(after, more) == Members(slots, index)[info.node.addr := info]
  {
    var after, more := slots[s := Some(Entry(info, None, false, None, None))], index[info.node.addr := s];
    forall t | Occupied(after, t) && t != s
      ensures after[t].value.info.node.addr in more && more[after[t].value.info.node.addr] == t
      ensures Timely(after[t].value, interval, clock)
      ensures after[t].value.ready != after[t].value.revisitKey.Some?
    {
      assert Occupied(slots, t) && Timely(slots[t].value, interval, clock);
    }
    forall a | a in more ensures Occupied(after, more[a]) && after[more[a]].value.info.node.addr == a {
      if a != info.node.addr { assert Occupied(slots, index[a]); }
    }
  }

  predicate IsFirst(keys: set<Key>, first: Key) {
    first in keys && forall k :: k in keys ==> !KeyLess(k, first)
  }

  /** A nonempty tree has a first key. */
  lemma {:induction false} FirstExists(keys: set<Key>) returns (first: Key)
    requires keys != {}
    ensures IsFirst(keys, first)
    decreases |keys|
  {
    var x :| x in keys;
    if k :| k in keys && KeyLess(k, x) {
      first := FirstExists(keys - {x});
      assert !KeyLess(k, first);
    } else {
      first := x;
    }
  }

  ghost function SlotsOf(keys: seq<Key>): seq<nat> {
    seq(|keys|, i requires 0 <= i < |keys| => keys[i].slot)
  }

  class Reservoir {
    var slots: Slots
    var index: map<Addr, nat>
    var writeCursor: nat
    var revisits: set<Key>
    var revisitSequence: nat
    var readyHead: Option<nat>
    var readyTail: Option<nat>
    var readyLen: nat
    const ttl: nat
    const revisitInterval: nat
    /** The ready list, head first. */
    ghost var ready: seq<nat>
    /** The slot handed out by the last selection and not yet rescheduled. */
    ghost var reserved: Option<nat>
    ghost var clock: Instant

    /** The links, the list ends and the tree agree with each other. */
    ghost predicate Wired()
      reads this
    {
      ListOk(slots, ready) && Ends(ready, readyHead, readyTail, readyLen) && TreeOk(slots, revisits, revisitSequence)
    }

    ghost predicate Valid()
      reads this
    {
      && Wired() && IndexOk(slots, index) && ScheduledOnce(slots, reserved)
      && NoneEarly(slots, revisitInterval, clock) && writeCursor < |slots|
    }

    /** What is known of each node. */
    ghost function Infos(): map<Addr, Info>
      requires Valid()
      reads this
    {
      Members(slots, index)
    }

    lemma IndexKeys()
      requires Valid()
      ensures IndexOk(slots, index) && Members(slots, index).Keys == index.Keys
    {
      hide ListOk, TreeOk, ScheduledOnce, NoneEarlyBut, IndexOk;
    }

    /** What is known of a node is in the slot that the index names. */
    lemma KnownAt(addr: Addr)
      requires Valid() && addr in index
      ensures Occupied(slots, index[addr]) && addr in Members(slots, index)
      ensures var info := slots[index[addr]].value.info;
        && info == Members(slots, index)[addr] && info.node.addr == addr
        && (info.failures == 0 <==> info.blockedUntil.None?) && info.failures <= 5
    {
      assert Timely(slots[index[addr]].value, revisitInterval, clock);
      hide ListOk, TreeOk, ScheduledOnce;
    }

    /** There are no more nodes than slots. */
    lemma Fits()
      requires Valid()
      ensures |index| <= |slots|
    {
      assert forall a, b :: a in index && b in index && a != b ==> index[a] != index[b];
      hide ListOk, TreeOk, ScheduledOnce, NoneEarlyBut;
      InjectiveSize(index, |slots|);
    }

    constructor (capacity: nat, lifetime: nat, interval: nat, now: Instant)
      ensures Valid() && index == map[] && reserved == None && clock == now
      ensures |slots| == if capacity == 0 then 1 else capacity
      ensures ttl == lifetime && revisitInterval == interval && writeCursor == 0
    {
      slots := seq(if capacity == 0 then 1 else capacity, _ => None);
      index, writeCursor, revisits, revisitSequence := map[], 0, {}, 0;
      readyHead, readyTail, readyLen, ready := None, None, 0, [];
      ttl, revisitInterval, reserved, clock := lifetime, interval, None, now;
    }

    /** Take a slot out of the list or the tree. */
    method Unschedule(slot: nat)
      requires Wired() && Occupied(slots, slot)
      modifies this`slots, this`revisits, this`readyHead, this`readyTail, this`readyLen, this`ready
      ensures Wired() && Relinked(old(slots), slots, slot)
      ensures Occupied(slots, slot) && !slots[slot].value.ready && slots[slot].value.revisitKey.None?
      ensures ready == Dropped(old(ready), slot)
      ensures revisits == old(if slots[slot].value.revisitKey.Some? then revisits - {slots[slot].value.revisitKey.value}
                              else revisits)
    {
      hide ListOk, TreeOk, Relinked, Dropped, Cut, Ends;
      var entry := slots[slot].value;
      ReadyIsListed(slots, ready, slot);
      if entry.revisitKey.Some? {
        revisits := revisits - {entry.revisitKey.value};
      }
      if entry.ready {
        ghost var p := DroppedAt(ready, slot);
        UnlinkOk(slots, ready, p);
        UnlinkRelinks(slots, ready, p);
        NeighboursOccupied(slots, ready, p);
        EndsCut(ready, p, readyHead, readyTail, readyLen);
        if entry.previous.Some? {
          slots := SetNext(slots, entry.previous, entry.next);
        } else {
          readyHead := entry.next;
        }
        if entry.next.Some? {
          slots := SetPrevious(slots, entry.next, entry.previous);
        } else {
          readyTail := entry.previous;
        }
        readyLen := readyLen - 1;
        ready := Cut(ready, p);
      } else {
        LoosenOk(slots, ready, slot);
      }
      slots := slots[slot := Some(Loose(slots[slot].value))];
      TreeDrop(old(slots), old(revisits), revisitSequence, slots, slot);
    }

    /** Append a loose slot to the ready list. */
    method PushReady(slot: nat)
      requires Wired() && Occupied(slots, slot) && !slots[slot].value.ready && slots[slot].value.revisitKey.None?
      modifies this`slots, this`readyHead, this`readyTail, this`readyLen, this`ready
      ensures Wired() && Relinked(old(slots), slots, slot)
      ensures Occupied(slots, slot) && slots[slot].value.ready && slots[slot].value.revisitKey.None?
      ensures ready == old(ready) + [slot]
    {
      hide ListOk, TreeOk, Relinked;
      ReadyIsListed(slots, ready, slot);
      LinkOk(slots, ready, slot);
      LinkRelinks(slots, ready, slot);
      TreeSame(slots, revisits, revisitSequence, Linked(slots, ready, slot), slot);
      slots := slots[slot := Some(slots[slot].value.(ready := true, previous := readyTail, next := None))];
      if readyTail.Some? {
        slots := SetNext(slots, readyTail, Some(slot));
      } else {
        readyHead := Some(slot);
      }
      readyTail := Some(slot);
      readyLen := readyLen + 1;
      ready := ready + [slot];
    }

    /** Schedule a slot at `when`, or at the end of its backoff if that is later: in the ready list if the
        time has come, else by a new key of the tree. */
    method EnqueueRevisit(slot: nat, when: Instant, now: Instant)
      requires Wired() && Occupied(slots, slot)
      modifies this`slots, this`revisits, this`revisitSequence, this`readyHead, this`readyTail, this`readyLen
      modifies this`ready
      ensures Wired() && Relinked(old(slots), slots, slot) && Occupied(slots, slot)
      ensures var due := Later(when, slots[slot].value.info.blockedUntil);
        && (slots[slot].value.ready <==> due <= now)
        && slots[slot].value.revisitKey == (if due <= now then None else Some(Key(due, old(revisitSequence), slot)))
        && ready == Dropped(old(ready), slot) + (if due <= now then [slot] else [])
    {
      hide ListOk, TreeOk, Dropped, Ends;
      Unschedule(slot);
      var due := Later(when, slots[slot].value.info.blockedUntil);
      if due <= now {
        PushReady(slot);
        return;
      }
      var key := Key(due, revisitSequence, slot);
      KeyOk(slots, ready, slot, key);
      TreeAdd(slots, revisits, revisitSequence, slot, due);
      revisitSequence := revisitSequence + 1;
      slots := slots[slot := Some(slots[slot].value.(revisitKey := Some(key)))];
      revisits := revisits + {key};
    }

    /** Replace what is known of a slot's node. */
    method SetInfo(slot: nat, info: Info)
      requires Valid() && Occupied(slots, slot) && info.node.addr == slots[slot].value.info.node.addr
      modifies this`slots
      ensures slots == WithInfo(old(slots), slot, info)
      ensures Wired() && IndexOk(slots, index) && ScheduledOnce(slots, reserved)
      ensures NoneEarlyBut(slots, slot, revisitInterval, clock) && writeCursor < |slots|
      ensures Members(slots, index) == old(Members(slots, index))[info.node.addr := info]
    {
      InfoWired(slots, ready, revisits, revisitSequence, slot, info);
      InfoIndexed(slots, index, slot, info, reserved, revisitInterval, clock);
      hide *;
      slots := WithInfo(slots, slot, info);
    }

    /** Schedule a slot whose information is up to date, for when it is eligible or later. */
    method Reschedule(slot: nat, when: Instant, now: Instant)
      requires Wired() && IndexOk(slots, index) && ScheduledOnce(slots, reserved) && writeCursor < |slots|
      requires NoneEarlyBut(slots, slot, revisitInterval, clock) && clock <= now
      requires Occupied(slots, slot) && (reserved.Some? ==> reserved.value == slot)
      requires var info := slots[slot].value.info;
        && info.lastProbeAt + revisitInterval <= when
        && (info.failures == 0 <==> info.blockedUntil.None?) && info.failures <= 5
      modifies this`slots, this`revisits, this`revisitSequence, this`readyHead, this`readyTail, this`readyLen
      modifies this`ready
      modifies this`reserved, this`clock
      ensures Valid() && reserved == None && clock == now && Members(slots, index) == old(Members(slots, index))
      ensures Moved(old(slots), old(ready), slots, ready, slot, Later(when, old(slots[slot].value.info.blockedUntil)),
          now)
    {
      hide ListOk, TreeOk, IndexOk, ScheduledOnce, NoneEarlyBut, Members, Ends, Dropped;
      EnqueueRevisit(slot, when, now);
      RelinkedKept(old(slots), slots, slot);
      assert slots[slot].value.info == old(slots[slot].value.info);
      Rescheduled(old(slots), slots, slot, index, reserved, revisitInterval, clock, now);
      reserved, clock := None, now;
    }

    /** Replace what is known of a slot's node and schedule it accordingly. */
    method Update(slot: nat, info: Info, when: Instant, now: Instant)
      requires Valid() && clock <= now && Occupied(slots, slot) && info.node.addr == slots[slot].value.info.node.addr
      requires (reserved.Some? ==> reserved.value == slot) && info.lastProbeAt + revisitInterval <= when
      requires (info.failures == 0 <==> info.blockedUntil.None?) && info.failures <= 5
      modifies this`slots, this`revisits, this`revisitSequence, this`readyHead, this`readyTail, this`readyLen
      modifies this`ready
      modifies this`reserved, this`clock
      ensures Valid() && reserved == None && clock == now && |slots| == |old(slots)|
      ensures Members(slots, index) == old(Members(slots, index))[info.node.addr := info]
      ensures Moved(old(slots), old(ready), slots, ready, slot, Later(when, info.blockedUntil), now)
    {
      hide ListOk, TreeOk, IndexOk, ScheduledOnce, NoneEarlyBut, Ends, Members, Dropped;
      SetInfo(slot, info);
      Reschedule(slot, when, now);
      hide Moved, OthersKept;
      MovedAfterInfo(old(slots), old(ready), slots, ready, slot, info, Later(when, info.blockedUntil), now);
    }

    /** Time passes; only the books know. */
    ghost method Advance(now: Instant)
      requires Valid() && clock <= now
      modifies this`clock
      ensures Valid() && clock == now
    {
      NoneEarlyLater(slots, 0, revisitInterval, clock, now);
      hide ListOk, TreeOk, IndexOk, ScheduledOnce, Ends;
      clock := now;
    }

    /** A probe was sent: the node rests for the revisit interval. Unknown endpoints are ignored. */
    method RecordProbe(addr: Addr, now: Instant)
      requires Valid() && clock <= now && (reserved.Some? ==> addr in index && index[addr] == reserved.value)
      modifies this
      ensures Valid() && reserved == None && clock == now && |slots| == |old(slots)| && index == old(index)
      ensures writeCursor == old(writeCursor)
      ensures Members(slots, index) ==
        if addr in index then old(Members(slots, index))[addr := old(Members(slots, index))[addr].(lastProbeAt := now)]
        else old(Members(slots, index))
      ensures if addr in index
              then var due := Later(now + revisitInterval, old(Members(slots, index))[addr].blockedUntil);
                Moved(old(slots), old(ready), slots, ready, index[addr], due, now)
              else slots == old(slots) && ready == old(ready)
    {
      hide ListOk, TreeOk, IndexOk, ScheduledOnce, NoneEarlyBut, Ends, Moved, Members;
      if addr !in index {
        Advance(now);
        return;
      }
      KnownAt(addr);
      var slot := index[addr];
      var info := slots[slot].value.info.(lastProbeAt := now);
      Update(slot, info, now + revisitInterval, now);
    }

    /** Put off a node whose dispatch was refused, without counting a probe. */
    method DeferRevisit(addr: Addr, retryAt: Instant, now: Instant)
      requires Valid() && clock <= now && (reserved.Some? ==> addr in index && index[addr] == reserved.value)
      modifies this
      ensures Valid() && reserved == None && clock == now && |slots| == |old(slots)| && index == old(index)
      ensures writeCursor == old(writeCursor) && Members(slots, index) == old(Members(slots, index))
      ensures if addr in index
              then var info := Members(slots, index)[addr];
                var rested := info.lastProbeAt + revisitInterval;
                var due := Later(if retryAt > rested then retryAt else rested, info.blockedUntil);
                Moved(old(slots), old(ready), slots, ready, index[addr], due, now)
              else slots == old(slots) && ready == old(ready)
    {
      hide ListOk, TreeOk, IndexOk, ScheduledOnce, NoneEarlyBut, Ends, Members;
      if addr !in index {
        Advance(now);
        return;
      }
      KnownAt(addr);
      var slot := index[addr];
      NoneEarlyLater(slots, slot, revisitInterval, clock, clock);
      var rested := slots[slot].value.info.lastProbeAt + revisitInterval;
      Reschedule(slot, if retryAt > rested then retryAt else rested, now);
    }

    /** A probe failed: back off, unless a success has been seen since the probe was sent. */
    method RecordFailure(addr: Addr, dispatchedAt: Instant, now: Instant) returns (counted: bool)
      requires Valid() && reserved == None && clock <= now
      modifies this
      ensures Valid() && reserved == None && clock == now && |slots| == |old(slots)| && index == old(index)
      ensures writeCursor == old(writeCursor)
      ensures counted <==> addr in index && old(Members(slots, index))[addr].lastSuccessAt <= dispatchedAt
      ensures !counted ==> slots == old(slots) && revisits == old(revisits) && ready == old(ready)
      ensures counted ==>
        && Members(slots, index) == old(Members(slots, index))[addr := Failed(old(Members(slots, index))[addr], now)]
        && var info := Failed(old(Members(slots, index))[addr], now);
           Moved(old(slots), old(ready), slots, ready, index[addr], EligibleAt(info, revisitInterval), now)
    {
      hide ListOk, TreeOk, IndexOk, ScheduledOnce, NoneEarlyBut, Ends, Backoff, Moved, Members;
      NoneEarlyLater(slots, 0, revisitInterval, clock, now);
      if addr !in index {
        clock := now;
        return false;
      }
      KnownAt(addr);
      var slot := index[addr];
      if slots[slot].value.info.lastSuccessAt > dispatchedAt {
        clock := now;
        return false;
      }
      var info := Failed(slots[slot].value.info, now);
      Update(slot, info, Later(info.lastProbeAt + revisitInterval, info.blockedUntil), now);
      return true;
    }

    method IsBackingOff(addr: Addr, now: Instant) returns (r: bool)
      requires Valid()
      ensures r <==> addr in index && Blocked(Members(slots, index)[addr], now)
    {
      r := addr in index && slots[index[addr]].value.info.blockedUntil.Some? &&
           slots[index[addr]].value.info.blockedUntil.value > now;
    }

    /** Free a slot and forget its node. */
    method Evict(slot: nat)
      requires Valid() && Occupied(slots, slot) && (reserved.Some? ==> reserved.value == slot)
      modifies this
      ensures Valid() && reserved == None && clock == old(clock) && OthersKept(old(slots), slots, slot)
      ensures slots[slot].None?
      ensures writeCursor == old(writeCursor) && ready == Dropped(old(ready), slot)
      ensures index == old(index) - {old(slots[slot].value.info.node.addr)}
      ensures Members(slots, index) == old(Members(slots, index)) - {old(slots[slot].value.info.node.addr)}
    {
      hide *;
      Reserve(slot);
      ghost var mid := slots;
      Erase(slot);
      KeptTwice(old(slots), mid, slots, slot);
    }

    /** Take a slot out of the schedule and set it aside. */
    method Reserve(slot: nat)
      requires Valid() && Occupied(slots, slot) && (reserved.Some? ==> reserved.value == slot)
      modifies this`slots, this`revisits, this`readyHead, this`readyTail, this`readyLen, this`ready, this`reserved
      ensures Valid() && reserved == Some(slot) && OthersKept(old(slots), slots, slot)
      ensures ready == Dropped(old(ready), slot)
      ensures Occupied(slots, slot) && slots[slot].value.info == old(slots[slot].value.info)
      ensures Members(slots, index) == old(Members(slots, index))
      ensures revisits == old(if slots[slot].value.revisitKey.Some? then revisits - {slots[slot].value.revisitKey.value}
                              else revisits)
    {
      hide ListOk, TreeOk, IndexOk, ScheduledOnce, NoneEarlyBut, Ends, Members, Dropped;
      Unschedule(slot);
      RelinkedKept(old(slots), slots, slot);
      Loosened(old(slots), slots, slot, index, reserved, revisitInterval, clock);
      reserved := Some(slot);
    }

    /** Forget the reserved slot's node. */
    method Erase(slot: nat)
      requires Valid() && Occupied(slots, slot) && reserved == Some(slot)
      modifies this`slots, this`index, this`reserved
      ensures Valid() && reserved == None && OthersKept(old(slots), slots, slot) && slots[slot].None?
      ensures index == old(index) - {old(slots[slot].value.info.node.addr)}
      ensures Members(slots, index) == old(Members(slots, index)) - {old(slots[slot].value.info.node.addr)}
    {
      EraseOk(slots, ready, revisits, revisitSequence, slot);
      EraseIndex(slots, index, slot, revisitInterval, clock);
      ErasedKept(slots, slot);
      hide ListOk, TreeOk, IndexOk, ScheduledOnce, NoneEarlyBut, Ends, Members, OthersKept;
      index := index - {slots[slot].value.info.node.addr};
      slots := slots[slot := None];
      reserved := None;
    }

    /** A reply: refresh a known node, ending its backoff; else take over the slot at the write cursor. */
    method Record(node: Node, now: Instant, probedAt: Instant)
      requires Valid() && reserved == None && clock <= now
      modifies this
      ensures Valid() && reserved == None && clock == now && |slots| == |old(slots)|
      ensures var members := old(Members(slots, index));
        if node.addr in members then
          && index == old(index) && writeCursor == old(writeCursor)
          && Members(slots, index) == members[node.addr := Refreshed(members[node.addr], node, now, ttl)]
          && if members[node.addr].failures > 0
             then Moved(old(slots), old(ready), slots, ready, index[node.addr],
                 members[node.addr].lastProbeAt + revisitInterval, now)
             else ready == old(ready) && revisits == old(revisits)
        else
          && Moved(old(slots), old(ready), slots, ready, old(writeCursor), probedAt + revisitInterval, now)
          && writeCursor == (old(writeCursor) + 1) % |slots|
          && var rest := if old(slots[writeCursor]).Some? then members - {old(slots[writeCursor]).value.info.node.addr}
                         else members;
             Members(slots, index) == rest[node.addr := Fresh(node, now, probedAt, ttl)]
    {
      hide ListOk, TreeOk, IndexOk, ScheduledOnce, NoneEarlyBut, Ends, Moved, Members;
      IndexKeys();
      if node.addr in index {
        RecordKnown(node, now);
      } else {
        RecordNew(node, now, probedAt);
      }
    }

    method RecordKnown(node: Node, now: Instant)
      requires Valid() && reserved == None && clock <= now && node.addr in index
      modifies this
      ensures Valid() && reserved == None && clock == now && |slots| == |old(slots)|
      ensures index == old(index) && writeCursor == old(writeCursor)
      ensures var members := old(Members(slots, index));
        && Members(slots, index) == members[node.addr := Refreshed(members[node.addr], node, now, ttl)]
        && if members[node.addr].failures > 0
           then Moved(old(slots), old(ready), slots, ready, index[node.addr],
               members[node.addr].lastProbeAt + revisitInterval, now)
           else ready == old(ready) && revisits == old(revisits)
    {
      hide ListOk, TreeOk, IndexOk, ScheduledOnce, NoneEarlyBut, Ends, Moved, Members;
      KnownAt(node.addr);
      var slot := index[node.addr];
      var was := slots[slot].value.info;
      if was.failures > 0 {
        Update(slot, Refreshed(was, node, now, ttl), was.lastProbeAt + revisitInterval, now);
      } else {
        Refresh(slot, node, now);
      }
    }

    /** Renew a node that is not backing off; it keeps its place in the schedule. */
    method Refresh(slot: nat, node: Node, now: Instant)
      requires Valid() && clock <= now && Occupied(slots, slot) && node.addr == slots[slot].value.info.node.addr
      requires slots[slot].value.info.failures == 0
      modifies this`slots, this`clock
      ensures Valid() && clock == now && |slots| == |old(slots)|
      ensures Members(slots, index) ==
        old(Members(slots, index))[node.addr := Refreshed(old(slots[slot].value.info), node, now, ttl)]
    {
      assert Timely(slots[slot].value, revisitInterval, clock);
      hide ListOk, TreeOk, IndexOk, ScheduledOnce, NoneEarlyBut, Ends, Members;
      SetInfo(slot, Refreshed(slots[slot].value.info, node, now, ttl));
      assert Timely(slots[slot].value, revisitInterval, now);
      StillTimely(slots, slot, revisitInterval, clock, now);
      clock := now;
    }

    method RecordNew(node: Node, now: Instant, probedAt: Instant)
      requires Valid() && reserved == None && clock <= now && node.addr !in index
      modifies this
      ensures Valid() && reserved == None && clock == now && |slots| == |old(slots)|
      ensures writeCursor == (old(writeCursor) + 1) % |slots|
      ensures var members := old(Members(slots, index));
        var rest := if old(slots[writeCursor]).Some? then members - {old(slots[writeCursor]).value.info.node.addr}
                    else members;
        Members(slots, index) == rest[node.addr := Fresh(node, now, probedAt, ttl)]
      ensures Moved(old(slots), old(ready), slots, ready, old(writeCursor), probedAt + revisitInterval, now)
    {
      hide ListOk, TreeOk, IndexOk, ScheduledOnce, NoneEarlyBut, Ends, Members, Dropped;
      var slot := writeCursor;
      if slots[slot].Some? {
        Evict(slot);
      } else {
        EmptyNotReady(slots, ready, slot);
      }
      var info := Fresh(node, now, probedAt, ttl);
      MovedAfterFill(old(slots), slots, slot, info);
      FillOk(slots, ready, revisits, revisitSequence, slot, info);
      FillIndex(slots, index, slot, info, revisitInterval, clock);
      slots := slots[slot := Some(Entry(info, None, false, None, None))];
      index := index[node.addr := slot];
      reserved := Some(slot);
      ghost var mid, list := slots, ready;
      Reschedule(slot, probedAt + revisitInterval, now);
      KeptTwice(old(slots), mid, slots, slot);
      assert list == Dropped(old(ready), slot);
      NotTwice(old(slots), old(ready), slot);
      writeCursor := (writeCursor + 1) % |slots|;
    }

    /** Move the first due key's slot to the end of the ready list. */
    method Promote(key: Key, now: Instant)
      requires Valid() && reserved == None && clock <= now
      requires key in revisits && key.at <= now
      modifies this
      ensures Valid() && reserved == None && clock == now && |slots| == |old(slots)| && index == old(index)
      ensures writeCursor == old(writeCursor) && Members(slots, index) == old(Members(slots, index))
      ensures ready == old(ready) + [key.slot] && revisits == old(revisits) - {key}
    {
      hide ListOk, TreeOk, IndexOk, ScheduledOnce, NoneEarlyBut, Ends, Members, Relinked, Timely;
      var slot := key.slot;
      KeyedSlot(key, now);
      ghost var before := slots;
      ghost var unkeyed := slots[slot := Some(slots[slot].value.(revisitKey := None))];
      revisits := revisits - {key};
      slots := slots[slot := Some(slots[slot].value.(revisitKey := None))];
      PushReady(slot);
      RelinkedTwice(before, unkeyed, slots, slot);
      ReadyTimely(before, slots, slot, revisitInterval, now);
      Rescheduled(before, slots, slot, index, reserved, revisitInterval, clock, now);
      clock := now;
    }

    /** The slot of a key that is due, and what is left of the wiring when the key is taken away. */
    lemma KeyedSlot(key: Key, now: Instant)
      requires Valid() && reserved == None && clock <= now && key in revisits && key.at <= now
      ensures Occupied(slots, key.slot) && slots[key.slot].value.revisitKey == Some(key) && !slots[key.slot].value.ready
      ensures var unkeyed := slots[key.slot := Some(slots[key.slot].value.(revisitKey := None))];
        && ListOk(unkeyed, ready) && TreeOk(unkeyed, revisits - {key}, revisitSequence)
        && Relinked(slots, unkeyed, key.slot) && NoneEarlyBut(slots, key.slot, revisitInterval, clock)
      ensures DueEntry(slots, key.slot, revisitInterval, now)
    {
      assert Occupied(slots, key.slot) && slots[key.slot].value.revisitKey == Some(key);
      assert Timely(slots[key.slot].value, revisitInterval, clock);
      assert !slots[key.slot].value.ready;
      hide ListOk, TreeOk, IndexOk, ScheduledOnce, NoneEarlyBut, Members;
      NoneEarlyLater(slots, key.slot, revisitInterval, clock, clock);
      Unkeyed(slots, ready, key.slot);
      TreeDrop(slots, revisits, revisitSequence,
               slots[key.slot := Some(slots[key.slot].value.(revisitKey := None))], key.slot);
    }

    /** Take the head of the ready list: reserve it, or forget it if it has expired. */
    method TakeHead(now: Instant) returns (node: Option<Node>)
      requires Valid() && reserved == None && clock == now && ready != []
      modifies this
      ensures Valid() && clock == now && |slots| == |old(slots)| && writeCursor == old(writeCursor)
      ensures ready == old(ready)[1..] && revisits == old(revisits) && Occupied(old(slots), old(ready)[0])
      ensures var info := old(slots[ready[0]].value.info);
        if info.expiresAt <= now then
          && node == None && reserved == None
          && Members(slots, index) == old(Members(slots, index)) - {info.node.addr}
        else
          && node == Some(info.node) && reserved == Some(old(ready)[0]) && index == old(index)
          && Members(slots, index) == old(Members(slots, index)) && EligibleAt(info, revisitInterval) <= now
    {
      hide ListOk, TreeOk, IndexOk, ScheduledOnce, NoneEarlyBut, Members, Dropped, EligibleAt;
      var slot := readyHead.value;
      HeadFacts(slots, ready, revisitInterval, clock);
      Reserve(slot);
      var info := slots[slot].value.info;
      if info.expiresAt <= now {
        Erase(slot);
        return None;
      }
      return Some(info.node);
    }

    /** A valid state between steps that holds exactly `members`. */
    ghost predicate Holds(members: map<Addr, Info>, positions: map<Addr, nat>, cursor: nat, size: nat, now: Instant)
      reads this
    {
      && Valid() && reserved == None && clock == now && |slots| == size
      && index == positions && writeCursor == cursor && Members(slots, index) == members
    }

    /** Move the slot of the first key to the ready list, if the key is due. */
    method PromoteFirst(now: Instant, ghost members: map<Addr, Info>, ghost positions: map<Addr, nat>,
                        ghost cursor: nat, ghost size: nat) returns (key: Option<Key>)
      requires Holds(members, positions, cursor, size, now)
      modifies this
      ensures Holds(members, positions, cursor, size, now)
      ensures key.None? ==> ready == old(ready) && revisits == old(revisits) && forall k :: k in revisits ==> k.at > now
      ensures key.Some? ==> ready == old(ready) + [key.value.slot] && revisits == old(revisits) - {key.value}
      ensures key.Some? ==> IsFirst(old(revisits), key.value) && key.value.at <= now
    {
      hide ListOk, TreeOk, IndexOk, ScheduledOnce, NoneEarlyBut, Ends, Members;
      if revisits == {} {
        return None;
      }
      ghost var least := FirstExists(revisits);
      var first :| first in revisits && forall k :: k in revisits ==> !KeyLess(k, first);
      assert IsFirst(revisits, first);
      if first.at > now {
        return None;
      }
      Promote(first, now);
      return Some(first);
    }

    /** Move the slots of up to 256 due keys to the ready list, first key first. */
    method PromoteDue(now: Instant) returns (ghost promoted: seq<Key>)
      requires Valid() && reserved == None && clock <= now
      modifies this
      ensures Holds(old(Members(slots, index)), old(index), old(writeCursor), old(|slots|), now)
      ensures FirstDue(old(revisits), revisits, promoted, now)
      ensures |promoted| == 256 || forall k :: k in revisits ==> k.at > now
      ensures ready == old(ready) + SlotsOf(promoted)
    {
      hide ListOk, TreeOk, IndexOk, ScheduledOnce, NoneEarlyBut, Ends, Members, SlotsOf, FirstDue;
      ghost var members, positions, cursor, size := Members(slots, index), index, writeCursor, |slots|;
      Advance(now);
      promoted := PromoteAll(now, members, positions, cursor, size);
    }

    method PromoteAll(now: Instant, ghost members: map<Addr, Info>, ghost positions: map<Addr, nat>, ghost cursor: nat,
                      ghost size: nat) returns (ghost promoted: seq<Key>)
      requires Holds(members, positions, cursor, size, now)
      modifies this
      ensures Holds(members, positions, cursor, size, now)
      ensures FirstDue(old(revisits), revisits, promoted, now)
      ensures |promoted| == 256 || forall k :: k in revisits ==> k.at > now
      ensures ready == old(ready) + SlotsOf(promoted)
    {
      SlotsOfNone();
      hide *;
      promoted := [];
      FirstDueNone(revisits, now);
      for n := 0 to 256
        invariant Holds(members, positions, cursor, size, now)
        invariant |promoted| == n && FirstDue(old(revisits), revisits, promoted, now)
        invariant ready == old(ready) + SlotsOf(promoted)
      {
        ghost var before := revisits;
        var key := PromoteFirst(now, members, positions, cursor, size);
        if key.None? {
          break;
        }
        PromoteOrder(old(revisits), before, promoted, key.value, now);
        promoted := promoted + [key.value];
      }
    }

    /** Reserve one eligible node: unexpired, past its backoff, and last probed at least the revisit
        interval ago. Nodes found expired on the way are forgotten. The ready list is served in order,
        newly due nodes behind it. */
    method NextRevisit(now: Instant) returns (node: Option<Node>, ghost promoted: seq<Key>, ghost dropped: nat)
      requires Valid() && reserved == None && clock <= now
      modifies this
      ensures Valid() && clock == now && |slots| == |old(slots)| && writeCursor == old(writeCursor)
      ensures FirstDue(old(revisits), revisits, promoted, now)
      ensures |promoted| == 256 || forall k :: k in revisits ==> k.at > now
      ensures OnlyExpiredGone(old(Members(slots, index)), Members(slots, index), now)
      ensures var queue := old(ready) + SlotsOf(promoted);
        if node.Some? then dropped < |queue| && reserved == Some(queue[dropped]) && ready == queue[dropped + 1..]
        else dropped <= |queue| && reserved == None && ready == queue[dropped..] && (ready == [] || dropped == 256)
      ensures node.Some? ==>
        && node.value.addr in index && reserved == Some(index[node.value.addr])
        && var info := Members(slots, index)[node.value.addr];
           info.node == node.value && info.expiresAt > now && EligibleAt(info, revisitInterval) <= now
      ensures dropped <= 256 && |Members(slots, index)| + dropped == |old(Members(slots, index))|
      ensures node.None? ==> dropped == 256 || (ready == [] && forall k :: k in revisits ==> k.at > now)
    {
      hide ListOk, TreeOk, IndexOk, ScheduledOnce, NoneEarlyBut, Members, EligibleAt, OnlyExpiredGone, FirstDue, Ends;
      promoted := PromoteDue(now);
      ghost var queue, later := ready, revisits;
      dropped, node := 0, None;
      GoneNone(Members(slots, index), now);
      for n := 0 to 256
        invariant Valid() && reserved == None && clock == now && |slots| == |old(slots)|
        invariant writeCursor == old(writeCursor)
        invariant revisits == later && node == None
        invariant OnlyExpiredGone(old(Members(slots, index)), Members(slots, index), now)
        invariant dropped == n && n <= |queue| && ready == queue[n..]
        invariant |Members(slots, index)| + n == |old(Members(slots, index))|
      {
        if readyHead.None? {
          EndsEmpty(ready, readyHead, readyTail, readyLen);
          return;
        }
        EndsHead(ready, readyHead, readyTail, readyLen);
        ghost var members := Members(slots, index);
        ghost var head := HeadMember(slots, ready, index, revisitInterval, clock);
        node := TakeHead(now);
        if node.Some? {
          return;
        }
        GoneOne(old(Members(slots, index)), members, head, now);
        SizeDrop(members, head);
        dropped := dropped + 1;
      }
    }
  }

  /** `promoted` lists, in order, the first keys of the tree; all of them were due. */
  ghost predicate FirstDue(before: set<Key>, after: set<Key>, promoted: seq<Key>, now: Instant) {
    && (forall i, j :: 0 <= i < j < |promoted| ==> KeyLess(promoted[i], promoted[j]))
    && (forall i :: 0 <= i < |promoted| ==> promoted[i] in before && promoted[i].at <= now)
    && (forall i, k :: 0 <= i < |promoted| && k in after ==> KeyLess(promoted[i], k))
    && (forall k :: k in before <==> k in after || k in promoted)
  }

  lemma SlotsOfNone()
    ensures SlotsOf([]) == []
  {
  }

  lemma FirstDueNone(keys: set<Key>, now: Instant)
    ensures FirstDue(keys, keys, [], now) && SlotsOf([]) == []
  {
  }

  lemma PromoteOrder(before: set<Key>, after: set<Key>, promoted: seq<Key>, key: Key, now: Instant)
    requires FirstDue(before, after, promoted, now) && IsFirst(after, key) && key.at <= now
    ensures FirstDue(before, after - {key}, promoted + [key], now)
    ensures SlotsOf(promoted + [key]) == SlotsOf(promoted) + [key.slot]
  {
    var more := promoted + [key];
    forall k | k in before ensures k in after - {key} || k in more {
      if k in promoted {
        var i :| 0 <= i < |promoted| && promoted[i] == k;
        assert more[i] == k;
      } else if k == key {
        assert more[|promoted|] == key;
      }
    }
    forall k | k in more ensures k in before {
      var i :| 0 <= i < |more| && more[i] == k;
    }
    forall i, k | 0 <= i < |more| && k in after - {key} ensures KeyLess(more[i], k) {
      KeyTotal(key, k);
    }
  }

  lemma KeyTotal(x: Key, y: Key)
    ensures x == y || KeyLess(x, y) || KeyLess(y, x)
  {
  }

  /** Only nodes that had expired are missing, and nothing else changed. */
  ghost predicate OnlyExpiredGone(before: map<Addr, Info>, after: map<Addr, Info>, now: Instant) {
    && (forall a :: a in after ==> a in before && after[a] == before[a])
    && (forall a :: a in before && before[a].expiresAt > now ==> a in after)
  }

  lemma GoneNone(m: map<Addr, Info>, now: Instant)
    ensures OnlyExpiredGone(m, m, now)
  {
  }

  lemma GoneOne(before: map<Addr, Info>, m: map<Addr, Info>, a: Addr, now: Instant)
    requires OnlyExpiredGone(before, m, now) && a in m && m[a].expiresAt <= now
    ensures OnlyExpiredGone(before, m - {a}, now)
  {
  }

  lemma EndsEmpty(ready: seq<nat>, head: Option<nat>, tail: Option<nat>, len: nat)
    requires Ends(ready, head, tail, len) && head.None?
    ensures ready == []
  {
  }

  lemma EndsHead(ready: seq<nat>, head: Option<nat>, tail: Option<nat>, len: nat)
    requires Ends(ready, head, tail, len) && head.Some?
    ensures ready != [] && head.value == ready[0]
  {
  }

  lemma HeadMember(slots: Slots, ready: seq<nat>, index: map<Addr, nat>, interval: nat, clock: Instant)
    returns (a: Addr)
    requires ready != [] && ListOk(slots, ready) && ScheduledOnce(slots, None) && NoneEarly(slots, interval, clock)
    requires IndexOk(slots, index)
    ensures Occupied(slots, ready[0]) && a == slots[ready[0]].value.info.node.addr
    ensures a in index && index[a] == ready[0] && a in Members(slots, index)
    ensures Members(slots, index)[a] == slots[ready[0]].value.info
  {
    HeadFacts(slots, ready, interval, clock);
    a := slots[ready[0]].value.info.node.addr;
  }

  /** The head of the ready list is eligible, and in the list only. */
  lemma HeadFacts(slots: Slots, ready: seq<nat>, interval: nat, clock: Instant)
    requires ready != [] && ListOk(slots, ready) && ScheduledOnce(slots, None) && NoneEarly(slots, interval, clock)
    ensures Dropped(ready, ready[0]) == ready[1..] && Occupied(slots, ready[0])
    ensures slots[ready[0]].value.revisitKey.None? && EligibleAt(slots[ready[0]].value.info, interval) <= clock
  {
    NeighboursOccupied(slots, ready, 0);
    var p := DroppedAt(ready, ready[0]);
    assert p == 0;
    assert Timely(slots[ready[0]].value, interval, clock);
  }

  lemma Unkeyed(slots: Slots, ready: seq<nat>, s: nat)
    requires ListOk(slots, ready) && Occupied(slots, s)
    ensures var after := slots[s := Some(slots[s].value.(revisitKey := None))];
      ListOk(after, ready) && Relinked(slots, after, s)
  {
    ListSame(slots, ready, slots[s := Some(slots[s].value.(revisitKey := None))]);
  }

  lemma StillTimely(slots: Slots, s: nat, interval: nat, clock: Instant, now: Instant)
    requires NoneEarlyBut(slots, s, interval, clock) && clock <= now
    requires Occupied(slots, s) && Timely(slots[s].value, interval, now)
    ensures NoneEarly(slots, interval, now)
  {
    forall t | Occupied(slots, t) ensures Timely(slots[t].value, interval, now) {
      if t != s { assert Timely(slots[t].value, interval, clock); }
    }
  }

  /** Unscheduling a slot reserves it. */
  lemma Loosened(slots: Slots, after: Slots, s: nat, index: map<Addr, nat>, reserved: Option<nat>, interval: nat,
                 clock: Instant)
    requires Relinked(slots, after, s) && IndexOk(slots, index) && NoneEarly(slots, interval, clock)
    requires ScheduledOnce(slots, reserved) && (reserved.Some? ==> reserved.value == s)
    requires Occupied(after, s) && !after[s].value.ready && after[s].value.revisitKey.None?
    ensures IndexOk(after, index) && Members(after, index) == Members(slots, index)
    ensures ScheduledOnce(after, Some(s)) && NoneEarly(after, interval, clock)
  {
    RelinkKeepsIndex(slots, after, s, index);
    forall t | Occupied(after, t)
      ensures Timely(after[t].value, interval, clock)
      ensures t != s ==> after[t].value.ready != after[t].value.revisitKey.Some?
    {
      assert Occupied(slots, t) && Timely(slots[t].value, interval, clock);
    }
  }

  lemma KeyOk(slots: Slots, ready: seq<nat>, s: nat, key: Key)
    requires ListOk(slots, ready) && Occupied(slots, s)
    ensures var after := slots[s := Some(slots[s].value.(revisitKey := Some(key)))];
      ListOk(after, ready) && Relinked(slots, after, s)
  {
    ListSame(slots, ready, slots[s := Some(slots[s].value.(revisitKey := Some(key)))]);
  }

  lemma LinkRelinks(slots: Slots, ready: seq<nat>, s: nat)
    requires ListOk(slots, ready) && Occupied(slots, s) && s !in ready
    ensures ready != [] ==> Occupied(slots, Last(ready).value)
    ensures Relinked(slots, Linked(slots, ready, s), s)
    ensures Linked(slots, ready, s)[s].Some? && Linked(slots, ready, s)[s].value.revisitKey == slots[s].value.revisitKey
  {
    if ready != [] { TailOccupied(slots, ready); }
  }

  function Later(when: Instant, blocked: Option<Instant>): Instant {
    if blocked.Some? && blocked.value > when then blocked.value else when
  }
}
