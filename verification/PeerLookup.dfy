/** Iterative get_peers lookups: one actor that walks towards each info hash, a few queries at a time. */
module PeerLookups {
  import opened Common
  import opened Nodes
  import opened Budgets
  import opened IdBits

  const MAX_FRONTIER: nat := 64
  const MAX_PEERS: nat := 64
  const MAX_SOURCES: nat := 8

  datatype QueryKey = QueryKey(addr: Addr, tid: nat)

  datatype Query = Query(lookup: nat, deadline: Instant)

  datatype Due = Due(at: Instant, key: QueryKey)

  datatype Lookup = Lookup(hash: NodeId, frontier: seq<Node>, sources: seq<Node>, seen: set<Addr>, peers: set<Addr>,
                           queried: nat, outstanding: nat, deadline: Instant)

  datatype Limits = Limits(maxActive: nat, maxQueries: nat, maxConcurrent: nat, lookupTimeout: nat, queryTimeout: nat)

  predicate Workable(l: Limits) {
    l.maxConcurrent > 0 && l.lookupTimeout > 0 && l.queryTimeout > 0
  }

  // ---------- what holds of one lookup ----------

  function Addrs(nodes: seq<Node>): (s: seq<Addr>)
    ensures |s| == |nodes|
  {
    seq(|nodes|, i requires 0 <= i < |nodes| => nodes[i].addr)
  }

  ghost predicate Spans(s: seq<Addr>, all: set<Addr>) {
    forall a :: a in s <==> a in all
  }

  /** The endpoints asked and those still to be asked are all different and all marked as seen; as many were asked
      as are counted, and no more than allowed. */
  ghost predicate Walks(l: Lookup, asked: seq<Addr>, limits: Limits) {
    && NoRepeats(asked + (Addrs(l.sources) + Addrs(l.frontier)))
    && Spans(asked + (Addrs(l.sources) + Addrs(l.frontier)), l.seen)
    && |asked| == l.queried <= limits.maxQueries
    && |l.frontier| <= MAX_FRONTIER && |l.peers| <= MAX_PEERS && l.outstanding <= limits.maxConcurrent
  }

  /** The queries pending for a lookup. */
  ghost function Of(pending: map<QueryKey, Query>, id: nat): set<QueryKey> {
    set k | k in pending && pending[k].lookup == id
  }

  /** Each lookup's count of outstanding queries is its number of pending ones; none belongs to a lookup that is
      over. */
  ghost predicate Counted(active: map<nat, Lookup>, pending: map<QueryKey, Query>) {
    && (forall id :: id in active ==> active[id].outstanding == |Of(pending, id)|)
    && (forall k :: k in pending ==> pending[k].lookup in active)
  }

  /** Every lookup has a query out and may send no more, but for some that are being seen to. */
  ghost predicate Busy(active: map<nat, Lookup>, loose: set<nat>, limits: Limits) {
    forall id :: id in active && id !in loose ==> active[id].outstanding > 0 && SendsNoMore(active[id], limits)
  }

  /** Why a lookup that goes on sends nothing now. */
  predicate SendsNoMore(l: Lookup, limits: Limits) {
    || l.outstanding >= limits.maxConcurrent || l.queried >= limits.maxQueries
    || (l.frontier == [] && l.sources == [])
  }

  ghost predicate AllWalk(active: map<nat, Lookup>, asked: map<nat, seq<Addr>>, limits: Limits) {
    forall id :: id in active ==> id in asked && Walks(active[id], asked[id], limits)
  }

  /** Numbers are used once. */
  ghost predicate Numbered(active: map<nat, Lookup>, pending: map<QueryKey, Query>, nextLookup: nat, nextTid: nat) {
    && (forall id :: id in active ==> id < nextLookup)
    && (forall k :: k in pending ==> k.tid < nextTid)
  }

  /** A listed query's deadline is its send time plus the query timeout, or its lookup's own deadline if that is
      sooner. The list is in order of send times, though not of deadlines. */
  ghost predicate Timed(active: map<nat, Lookup>, pending: map<QueryKey, Query>, expiry: seq<Due>, sent: seq<Instant>,
                        clock: Instant, timeout: nat) {
    && |sent| == |expiry| && (forall i, j :: 0 <= i < j < |sent| ==> sent[i] <= sent[j])
    && (forall i :: 0 <= i < |sent| ==> sent[i] <= clock && expiry[i].at <= sent[i] + timeout)
    && (forall k :: k in pending ==> Listed(active, pending, expiry, sent, timeout, k))
  }

  ghost predicate Listed(active: map<nat, Lookup>, pending: map<QueryKey, Query>, expiry: seq<Due>, sent: seq<Instant>,
                         timeout: nat, k: QueryKey)
    requires k in pending && |sent| == |expiry|
  {
    exists i :: 0 <= i < |expiry| && expiry[i] == Due(pending[k].deadline, k) &&
      (pending[k].deadline == sent[i] + timeout ||
       (pending[k].lookup in active && pending[k].deadline == active[pending[k].lookup].deadline))
  }

  datatype Desk = Desk(active: map<nat, Lookup>, pending: map<QueryKey, Query>, expiry: seq<Due>, nextLookup: nat,
                       nextTid: nat, sent: seq<Instant>, asked: map<nat, seq<Addr>>)

  ghost predicate Sound(d: Desk, loose: set<nat>, clock: Instant, limits: Limits) {
    && Workable(limits) && Counted(d.active, d.pending) && Busy(d.active, loose, limits)
    && AllWalk(d.active, d.asked, limits)
    && Numbered(d.active, d.pending, d.nextLookup, d.nextTid)
    && Timed(d.active, d.pending, d.expiry, d.sent, clock, limits.queryTimeout)
  }

  // ---------- moves ----------

  /** A new lookup. */
  function Opened(d: Desk, l: Lookup): Desk {
    d.(active := d.active[d.nextLookup := l], asked := d.asked[d.nextLookup := []], nextLookup := d.nextLookup + 1)
  }

  /** A lookup takes its next endpoint: a node that supplied the hash, else the frontier's at `i`. */
  function Taken(l: Lookup, i: nat): Lookup
    requires l.sources != [] || i < |l.frontier|
  {
    if l.sources != [] then l.(sources := l.sources[1..], queried := l.queried + 1)
    else l.(frontier := SwapRemove(l.frontier, i), queried := l.queried + 1)
  }

  function Next(l: Lookup, i: nat): Node
    requires l.sources != [] || i < |l.frontier|
  {
    if l.sources != [] then l.sources[0] else l.frontier[i]
  }

  /** The last element takes the place of the one removed. */
  function SwapRemove(s: seq<Node>, i: nat): (r: seq<Node>)
    requires i < |s|
    ensures |r| == |s| - 1
  {
    s[i := s[|s| - 1]][..|s| - 1]
  }

  function Chosen(d: Desk, id: nat, i: nat): Desk
    requires id in d.active && id in d.asked && (d.active[id].sources != [] || i < |d.active[id].frontier|)
  {
    d.(active := d.active[id := Taken(d.active[id], i)],
       asked := d.asked[id := d.asked[id] + [Next(d.active[id], i).addr]],
       nextTid := d.nextTid + 1)
  }

  /** A query with number `tid` is out. */
  function Sent(d: Desk, id: nat, key: QueryKey, deadline: Instant, now: Instant): Desk
    requires id in d.active
  {
    d.(active := d.active[id := d.active[id].(outstanding := d.active[id].outstanding + 1)],
       pending := d.pending[key := Query(id, deadline)], expiry := d.expiry + [Due(deadline, key)],
       sent := d.sent + [now])
  }

  function Less1(n: nat): nat {
    if n == 0 then 0 else n - 1
  }

  /** A query is answered or out of time. */
  function Closed(d: Desk, key: QueryKey): Desk
    requires key in d.pending && d.pending[key].lookup in d.active
  {
    var id := d.pending[key].lookup;
    d.(pending := d.pending - {key},
        active := d.active[id := d.active[id].(outstanding := Less1(d.active[id].outstanding))])
  }

  /** A lookup is over; its queries no longer count. */
  function Finished(d: Desk, id: nat): Desk {
    d.(active := d.active - {id}, pending := map k | k in d.pending && d.pending[k].lookup != id :: d.pending[k])
  }

  function Unlisted(d: Desk): Desk
    requires d.expiry != [] && d.sent != []
  {
    d.(expiry := d.expiry[1..], sent := d.sent[1..])
  }

  // ---------- each move keeps the books ----------

  lemma OfAdd(pending: map<QueryKey, Query>, key: QueryKey, q: Query, id: nat)
    requires key !in pending
    ensures |Of(pending[key := q], id)| == |Of(pending, id)| + (if q.lookup == id then 1 else 0)
  {
    assert Of(pending[key := q], id) == Of(pending, id) + (if q.lookup == id then {key} else {});
  }

  lemma OfDrop(pending: map<QueryKey, Query>, key: QueryKey, id: nat)
    requires key in pending
    ensures |Of(pending - {key}, id)| == |Of(pending, id)| - (if pending[key].lookup == id then 1 else 0)
  {
    assert Of(pending - {key}, id) == Of(pending, id) - (if pending[key].lookup == id then {key} else {});
  }

  lemma CountedSent(active: map<nat, Lookup>, pending: map<QueryKey, Query>, id: nat, key: QueryKey, q: Query)
    requires Counted(active, pending) && id in active && key !in pending && q.lookup == id
    ensures Counted(active[id := active[id].(outstanding := active[id].outstanding + 1)], pending[key := q])
  {
    forall j | j in active ensures |Of(pending[key := q], j)| == active[j].outstanding + (if j == id then 1 else 0) {
      OfAdd(pending, key, q, j);
    }
  }

  lemma CountedClosed(active: map<nat, Lookup>, pending: map<QueryKey, Query>, key: QueryKey)
    requires Counted(active, pending) && key in pending
    ensures var id := pending[key].lookup;
      && id in active && active[id].outstanding > 0
      && Counted(active[id := active[id].(outstanding := active[id].outstanding - 1)], pending - {key})
  {
    forall j | j in active
      ensures |Of(pending - {key}, j)| == active[j].outstanding - (if j == pending[key].lookup then 1 else 0) {
      OfDrop(pending, key, j);
    }
    assert key in Of(pending, pending[key].lookup);
  }

  lemma CountedFinished(d: Desk, id: nat)
    requires Counted(d.active, d.pending)
    ensures Counted(Finished(d, id).active, Finished(d, id).pending)
  {
    forall j | j in Finished(d, id).active ensures Of(Finished(d, id).pending, j) == Of(d.pending, j) {
    }
  }

  lemma TimedSent(active: map<nat, Lookup>, pending: map<QueryKey, Query>, expiry: seq<Due>, sent: seq<Instant>,
                  clock: Instant, timeout: nat, id: nat, l: Lookup, key: QueryKey, deadline: Instant)
    requires Timed(active, pending, expiry, sent, clock, timeout) && id in active && key !in pending
    requires l.deadline == active[id].deadline
    requires (deadline == clock + timeout || (deadline == l.deadline && deadline <= clock + timeout))
    ensures Timed(active[id := l], pending[key := Query(id, deadline)], expiry + [Due(deadline, key)], sent + [clock],
        clock, timeout)
  {
    var a, p, e, t := active[id := l], pending[key := Query(id, deadline)], expiry + [Due(deadline, key)],
        sent + [clock];
    forall k | k in p ensures Listed(a, p, e, t, timeout, k) {
      if k == key {
        assert e[|expiry|] == Due(p[k].deadline, k);
      } else {
        assert Listed(active, pending, expiry, sent, timeout, k);
        var i :| 0 <= i < |expiry| && expiry[i] == Due(pending[k].deadline, k) &&
          (pending[k].deadline == sent[i] + timeout ||
           (pending[k].lookup in active && pending[k].deadline == active[pending[k].lookup].deadline));
        assert e[i] == expiry[i] && t[i] == sent[i];
      }
    }
  }

  /** Changes that keep every remaining query's lookup with its deadline keep the times. */
  lemma TimedFewer(active: map<nat, Lookup>, pending: map<QueryKey, Query>, expiry: seq<Due>, sent: seq<Instant>,
                   clock: Instant, timeout: nat, after: map<nat, Lookup>, rest: map<QueryKey, Query>)
    requires Timed(active, pending, expiry, sent, clock, timeout)
    requires forall k :: k in rest ==> k in pending && rest[k] == pending[k]
    requires forall k :: k in rest && rest[k].lookup in active ==>
      rest[k].lookup in after && after[rest[k].lookup].deadline == active[rest[k].lookup].deadline
    ensures Timed(after, rest, expiry, sent, clock, timeout)
  {
    forall k | k in rest ensures Listed(after, rest, expiry, sent, timeout, k) {
      assert Listed(active, pending, expiry, sent, timeout, k);
    }
  }

  lemma TimedLater(active: map<nat, Lookup>, pending: map<QueryKey, Query>, expiry: seq<Due>, sent: seq<Instant>,
                   clock: Instant, now: Instant, timeout: nat)
    requires Timed(active, pending, expiry, sent, clock, timeout) && clock <= now
    ensures Timed(active, pending, expiry, sent, now, timeout)
  {
    hide Listed;
  }

  lemma TimedPop(active: map<nat, Lookup>, pending: map<QueryKey, Query>, expiry: seq<Due>, sent: seq<Instant>,
                 clock: Instant, timeout: nat)
    requires Timed(active, pending, expiry, sent, clock, timeout) && expiry != []
    requires expiry[0].key in pending ==> pending[expiry[0].key].deadline != expiry[0].at
    ensures Timed(active, pending, expiry[1..], sent[1..], clock, timeout)
  {
    forall k | k in pending ensures Listed(active, pending, expiry[1..], sent[1..], timeout, k) {
      assert Listed(active, pending, expiry, sent, timeout, k);
      var i :| 0 <= i < |expiry| && expiry[i] == Due(pending[k].deadline, k) &&
        (pending[k].deadline == sent[i] + timeout ||
         (pending[k].lookup in active && pending[k].deadline == active[pending[k].lookup].deadline));
      assert expiry[1..][i - 1] == expiry[i] && sent[1..][i - 1] == sent[i];
    }
  }

  /** When the head of the list is not due, an overdue query can only be due to its lookup's own deadline, although
      the list is not in order of deadlines. */
  lemma OverdueOnlyWithLookup(active: map<nat, Lookup>, pending: map<QueryKey, Query>, expiry: seq<Due>,
                              sent: seq<Instant>, clock: Instant, timeout: nat, now: Instant, k: QueryKey)
    requires Timed(active, pending, expiry, sent, clock, timeout) && (expiry != [] ==> expiry[0].at > now)
    requires k in pending && pending[k].deadline <= now
    ensures pending[k].lookup in active && active[pending[k].lookup].deadline <= now
  {
    assert Listed(active, pending, expiry, sent, timeout, k);
    var i :| 0 <= i < |expiry| && expiry[i] == Due(pending[k].deadline, k) &&
      (pending[k].deadline == sent[i] + timeout ||
       (pending[k].lookup in active && pending[k].deadline == active[pending[k].lookup].deadline));
    assert sent[0] <= sent[i];
  }

  /** Where the endpoints of a frontier stood before one of them was taken. */
  function Origin(asked: int, i: int, last: int, p: int): int {
    if p < asked then p else if p == asked then asked + i else if p - asked - 1 == i then asked + last else p - 1
  }

  lemma OriginInjective(asked: int, i: int, last: int, p: int, q: int)
    requires 0 <= asked && 0 <= i <= last && 0 <= p < q <= asked + last
    ensures Origin(asked, i, last, p) != Origin(asked, i, last, q)
  {
  }

  /** Where an endpoint goes when the frontier node at `i` is asked and the last one takes its place. */
  function Target(asked: nat, i: nat, last: int, q: int): int {
    if q < asked then q
    else if q - asked == i then asked
    else if q - asked == last then asked + 1 + i
    else q + 1
  }

  /** The endpoints of a lookup in the order asked, to be asked first, and on the frontier. */
  ghost function Path(asked: seq<Addr>, frontier: seq<Node>): seq<Addr> {
    asked + (Addrs([]) + Addrs(frontier))
  }

  lemma FromPath(asked: seq<Addr>, frontier: seq<Node>, i: nat, p: nat)
    requires i < |frontier| && p < |asked| + |frontier|
    ensures var q := Origin(|asked|, i, |frontier| - 1, p);
      && 0 <= q < |asked| + |frontier|
      && Path(asked + [frontier[i].addr], SwapRemove(frontier, i))[p] == Path(asked, frontier)[q]
  {
  }

  lemma ToPath(asked: seq<Addr>, frontier: seq<Node>, i: nat, q: nat)
    requires i < |frontier| && q < |asked| + |frontier|
    ensures var p := Target(|asked|, i, |frontier| - 1, q);
      && 0 <= p < |asked| + |frontier|
      && Path(asked, frontier)[q] == Path(asked + [frontier[i].addr], SwapRemove(frontier, i))[p]
  {
  }

  lemma FrontierTaken(asked: seq<Addr>, frontier: seq<Node>, i: nat, seen: set<Addr>)
    requires i < |frontier| && NoRepeats(Path(asked, frontier)) && Spans(Path(asked, frontier), seen)
    ensures NoRepeats(Path(asked + [frontier[i].addr], SwapRemove(frontier, i)))
    ensures Spans(Path(asked + [frontier[i].addr], SwapRemove(frontier, i)), seen)
  {
    var s, t := Path(asked, frontier), Path(asked + [frontier[i].addr], SwapRemove(frontier, i));
    assert |s| == |t| == |asked| + |frontier|;
    hide Path, SwapRemove, Origin, Target;
    forall p, q | 0 <= p < q < |t| ensures t[p] != t[q] {
      FromPath(asked, frontier, i, p);
      FromPath(asked, frontier, i, q);
      OriginInjective(|asked|, i, |frontier| - 1, p, q);
    }
    forall a ensures a in t <==> a in seen {
      if a in t {
        var p :| 0 <= p < |t| && t[p] == a;
        FromPath(asked, frontier, i, p);
      }
      if a in seen {
        var q :| 0 <= q < |s| && s[q] == a;
        ToPath(asked, frontier, i, q);
      }
    }
  }

  /** The next endpoint was not asked before, and asking it keeps the lookup in order. */
  lemma WalksTaken(l: Lookup, asked: seq<Addr>, i: nat, limits: Limits)
    requires Walks(l, asked, limits) && l.queried < limits.maxQueries && (l.sources != [] || i < |l.frontier|)
    ensures Walks(Taken(l, i), asked + [Next(l, i).addr], limits) && Next(l, i).addr !in asked
  {
    var s := asked + (Addrs(l.sources) + Addrs(l.frontier));
    if l.sources != [] {
      assert (asked + [l.sources[0].addr]) + (Addrs(l.sources[1..]) + Addrs(l.frontier)) == s;
      assert s[|asked|] == l.sources[0].addr;
    } else {
      FrontierTaken(asked, l.frontier, i, l.seen);
      assert s[|asked| + i] == l.frontier[i].addr;
    }
    hide Addrs;
    assert forall p :: 0 <= p < |asked| ==> s[p] == asked[p];
  }

  /** A node not seen before joins the frontier. */
  lemma WalksJoined(l: Lookup, asked: seq<Addr>, node: Node, limits: Limits)
    requires Walks(l, asked, limits) && |l.frontier| < MAX_FRONTIER && node.addr !in l.seen
    ensures Walks(l.(frontier := l.frontier + [node], seen := l.seen + {node.addr}), asked, limits)
  {
    var s := asked + (Addrs(l.sources) + Addrs(l.frontier));
    assert asked + (Addrs(l.sources) + Addrs(l.frontier + [node])) == s + [node.addr];
    assert forall p :: 0 <= p < |s| ==> s[p] in s;
  }

  // ---------- the whole desk ----------

  lemma WalkOf(d: Desk, loose: set<nat>, clock: Instant, limits: Limits, id: nat)
    requires Sound(d, loose, clock, limits) && id in d.active
    ensures id in d.asked && Walks(d.active[id], d.asked[id], limits) && id < d.nextLookup
  {
    hide Counted, Busy, Timed, Walks;
  }

  lemma AllWalkReplaced(active: map<nat, Lookup>, asked: map<nat, seq<Addr>>, limits: Limits, id: nat, l: Lookup,
                        path: seq<Addr>)
    requires AllWalk(active, asked, limits) && Walks(l, path, limits)
    ensures AllWalk(active[id := l], asked[id := path], limits)
  {
    hide Walks;
  }

  lemma BusyReplaced(active: map<nat, Lookup>, loose: set<nat>, limits: Limits, id: nat, l: Lookup)
    requires Busy(active, loose, limits)
    ensures Busy(active[id := l], loose + {id}, limits) && (id in loose ==> Busy(active[id := l], loose, limits))
  {
    hide SendsNoMore;
  }

  lemma NumberedReplaced(active: map<nat, Lookup>, pending: map<QueryKey, Query>, nextLookup: nat, nextTid: nat,
                         id: nat, l: Lookup)
    requires Numbered(active, pending, nextLookup, nextTid) && id < nextLookup
    ensures Numbered(active[id := l], pending, nextLookup, nextTid)
    ensures Numbered(active[id := l], pending, nextLookup, nextTid + 1)
  {
  }

  lemma CountedReplaced(active: map<nat, Lookup>, pending: map<QueryKey, Query>, id: nat, l: Lookup)
    requires Counted(active, pending) && id in active && l.outstanding == active[id].outstanding
    ensures Counted(active[id := l], pending)
  {
  }

  lemma SoundLater(d: Desk, loose: set<nat>, clock: Instant, now: Instant, limits: Limits)
    requires Sound(d, loose, clock, limits) && clock <= now
    ensures Sound(d, loose, now, limits)
  {
    hide Counted, Busy, AllWalk, Numbered, Timed;
    TimedLater(d.active, d.pending, d.expiry, d.sent, clock, now, limits.queryTimeout);
  }

  lemma SoundOpened(d: Desk, loose: set<nat>, clock: Instant, limits: Limits, l: Lookup)
    requires Sound(d, loose, clock, limits) && l.outstanding == 0 && Walks(l, [], limits)
    ensures Sound(Opened(d, l), loose + {d.nextLookup}, clock, limits)
  {
    hide AllWalk, Busy, Timed, Walks, Workable;
    var id := d.nextLookup;
    assert Of(d.pending, id) == {};
    AllWalkReplaced(d.active, d.asked, limits, id, l, []);
    BusyReplaced(d.active, loose, limits, id, l);
    TimedFewer(d.active, d.pending, d.expiry, d.sent, clock, limits.queryTimeout, d.active[id := l], d.pending);
  }

  lemma SoundChosen(d: Desk, loose: set<nat>, clock: Instant, limits: Limits, id: nat, i: nat)
    requires Sound(d, loose, clock, limits) && id in d.active && d.active[id].queried < limits.maxQueries
    requires id in loose && (d.active[id].sources != [] || i < |d.active[id].frontier|)
    ensures id in d.asked && Sound(Chosen(d, id, i), loose, clock, limits)
    ensures Next(d.active[id], i).addr !in d.asked[id]
  {
    hide Counted, Busy, AllWalk, Numbered, Timed, Walks, Workable;
    WalkOf(d, loose, clock, limits, id);
    var l, path := Taken(d.active[id], i), d.asked[id] + [Next(d.active[id], i).addr];
    WalksTaken(d.active[id], d.asked[id], i, limits);
    AllWalkReplaced(d.active, d.asked, limits, id, l, path);
    BusyReplaced(d.active, loose, limits, id, l);
    CountedReplaced(d.active, d.pending, id, l);
    NumberedReplaced(d.active, d.pending, d.nextLookup, d.nextTid, id, l);
    TimedFewer(d.active, d.pending, d.expiry, d.sent, clock, limits.queryTimeout, d.active[id := l], d.pending);
  }

  lemma SoundSent(d: Desk, loose: set<nat>, clock: Instant, limits: Limits, id: nat, addr: Addr, deadline: Instant)
    requires Sound(d, loose, clock, limits) && id in d.active && d.active[id].outstanding < limits.maxConcurrent
    requires d.nextTid > 0 && id in loose
    requires QueryKey(addr, d.nextTid - 1) !in d.pending
    requires var t := clock + limits.queryTimeout;
      deadline == (if t < d.active[id].deadline then t else d.active[id].deadline)
    ensures Sound(Sent(d, id, QueryKey(addr, d.nextTid - 1), deadline, clock), loose, clock, limits)
  {
    hide Counted, Busy, AllWalk, Numbered, Timed, Walks, Workable;
    WalkOf(d, loose, clock, limits, id);
    var key := QueryKey(addr, d.nextTid - 1);
    var l := d.active[id].(outstanding := d.active[id].outstanding + 1);
    CountedSent(d.active, d.pending, id, key, Query(id, deadline));
    TimedSent(d.active, d.pending, d.expiry, d.sent, clock, limits.queryTimeout, id, l, key, deadline);
    WalksCounted(d.active[id], d.asked[id], limits, l);
    AllWalkReplaced(d.active, d.asked, limits, id, l, d.asked[id]);
    assert d.asked[id := d.asked[id]] == d.asked;
    BusyReplaced(d.active, loose, limits, id, l);
    NumberedReplaced(d.active, d.pending, d.nextLookup, d.nextTid, id, l);
    NumberedSent(d.active[id := l], d.pending, d.nextLookup, d.nextTid, key, Query(id, deadline));
  }

  lemma WalksCounted(l: Lookup, asked: seq<Addr>, limits: Limits, m: Lookup)
    requires Walks(l, asked, limits) && m == l.(outstanding := m.outstanding) && m.outstanding <= limits.maxConcurrent
    ensures Walks(m, asked, limits)
  {
  }

  lemma NumberedSent(active: map<nat, Lookup>, pending: map<QueryKey, Query>, nextLookup: nat, nextTid: nat,
                     key: QueryKey, q: Query)
    requires Numbered(active, pending, nextLookup, nextTid) && key.tid < nextTid
    ensures Numbered(active, pending[key := q], nextLookup, nextTid)
  {
  }

  lemma NumberedFewer(active: map<nat, Lookup>, pending: map<QueryKey, Query>, nextLookup: nat, nextTid: nat,
                      key: QueryKey)
    requires Numbered(active, pending, nextLookup, nextTid)
    ensures Numbered(active, pending - {key}, nextLookup, nextTid)
  {
  }

  lemma SoundClosed(d: Desk, loose: set<nat>, clock: Instant, limits: Limits, key: QueryKey)
    requires Sound(d, loose, clock, limits) && key in d.pending
    ensures d.pending[key].lookup in d.active && Sound(Closed(d, key), loose + {d.pending[key].lookup}, clock, limits)
  {
    hide Counted, Busy, AllWalk, Numbered, Timed, Walks, Workable;
    var id := d.pending[key].lookup;
    CountedClosed(d.active, d.pending, key);
    WalkOf(d, loose, clock, limits, id);
    var l := d.active[id].(outstanding := d.active[id].outstanding - 1);
    LimitOf(d.active[id], d.asked[id], limits);
    WalksCounted(d.active[id], d.asked[id], limits, l);
    AllWalkReplaced(d.active, d.asked, limits, id, l, d.asked[id]);
    assert d.asked[id := d.asked[id]] == d.asked;
    BusyReplaced(d.active, loose, limits, id, l);
    NumberedReplaced(d.active, d.pending, d.nextLookup, d.nextTid, id, l);
    NumberedFewer(d.active[id := l], d.pending, d.nextLookup, d.nextTid, key);
    TimedFewer(d.active, d.pending, d.expiry, d.sent, clock, limits.queryTimeout, d.active[id := l], d.pending - {key});
  }

  lemma LimitOf(l: Lookup, asked: seq<Addr>, limits: Limits)
    requires Walks(l, asked, limits)
    ensures l.outstanding <= limits.maxConcurrent && l.queried <= limits.maxQueries && |l.peers| <= MAX_PEERS
  {
  }

  lemma SoundFinished(d: Desk, loose: set<nat>, clock: Instant, limits: Limits, id: nat)
    requires Sound(d, loose, clock, limits)
    ensures Sound(Finished(d, id), loose - {id}, clock, limits)
  {
    CountedFinished(d, id);
    TimedFewer(d.active, d.pending, d.expiry, d.sent, clock, limits.queryTimeout, d.active - {id},
               Finished(d, id).pending);
    hide Walks, Timed, Counted;
  }

  lemma SoundUnlisted(d: Desk, loose: set<nat>, clock: Instant, limits: Limits)
    requires Sound(d, loose, clock, limits) && d.expiry != []
    requires d.expiry[0].key in d.pending ==> d.pending[d.expiry[0].key].deadline != d.expiry[0].at
    ensures d.sent != [] && Sound(Unlisted(d), loose, clock, limits)
  {
    TimedPop(d.active, d.pending, d.expiry, d.sent, clock, limits.queryTimeout);
    assert d.sent != [];
    hide Counted, Busy, AllWalk, Numbered, Timed;
  }

  /** A lookup learns peers or nodes. */
  lemma SoundLearned(d: Desk, loose: set<nat>, clock: Instant, limits: Limits, id: nat, l: Lookup)
    requires Sound(d, loose, clock, limits) && id in d.active && id in loose
    requires id in d.asked && Walks(l, d.asked[id], limits)
    requires l.outstanding == d.active[id].outstanding && l.deadline == d.active[id].deadline
    ensures Sound(d.(active := d.active[id := l]), loose, clock, limits)
  {
    hide Counted, Busy, AllWalk, Numbered, Timed, Walks, Workable;
    WalkOf(d, loose, clock, limits, id);
    AllWalkReplaced(d.active, d.asked, limits, id, l, d.asked[id]);
    assert d.asked[id := d.asked[id]] == d.asked;
    BusyReplaced(d.active, loose, limits, id, l);
    CountedReplaced(d.active, d.pending, id, l);
    NumberedReplaced(d.active, d.pending, d.nextLookup, d.nextTid, id, l);
    TimedFewer(d.active, d.pending, d.expiry, d.sent, clock, limits.queryTimeout, d.active[id := l], d.pending);
  }

  lemma SoundTight(d: Desk, loose: set<nat>, clock: Instant, limits: Limits, id: nat)
    requires Sound(d, loose, clock, limits)
    requires id in d.active ==> d.active[id].outstanding > 0 && SendsNoMore(d.active[id], limits)
    ensures Sound(d, loose - {id}, clock, limits)
  {
    hide Counted, AllWalk, Numbered, Timed, SendsNoMore;
  }

  // ---------- when a lookup is over ----------

  datatype Reason = Canceled | OutOfTime | EnoughPeers | BudgetSpent | Exhausted

  function FinishReason(l: Lookup, isClosed: bool, now: Instant, limits: Limits): Option<Reason> {
    if isClosed then Some(Canceled)
    else if l.deadline <= now then Some(OutOfTime)
    else if |l.peers| >= MAX_PEERS then Some(EnoughPeers)
    else if l.outstanding == 0 && l.queried >= limits.maxQueries then Some(BudgetSpent)
    else if l.outstanding == 0 && l.frontier == [] && l.sources == [] then Some(Exhausted)
    else None
  }

  /** A lookup may send no further query now. */
  predicate Stuck(l: Lookup, isClosed: bool, now: Instant, limits: Limits) {
    || isClosed || l.deadline <= now || |l.peers| >= MAX_PEERS || l.queried >= limits.maxQueries
    || l.outstanding >= limits.maxConcurrent || (l.frontier == [] && l.sources == [])
  }

  /** A lookup that may send nothing, now or later, and waits for nothing is over. */
  /** When a lookup may be closed: its receiver is gone, its time is over, it has all the peers it may hold; or it waits
      for no answer and has spent its queries or has nobody left to ask. */
  predicate MayEnd(l: Lookup, isClosed: bool, now: Instant, limits: Limits) {
    || isClosed || l.deadline <= now || |l.peers| >= MAX_PEERS
    || (l.outstanding == 0 && (l.queried >= limits.maxQueries || (l.frontier == [] && l.sources == [])))
  }

  lemma PastDeadline(l: Lookup, isClosed: bool, now: Instant, limits: Limits)
    requires l.deadline <= now
    ensures MayEnd(l, isClosed, now, limits)
  {
  }

  lemma EndsLater(l: Lookup, wasClosed: bool, isClosed: bool, before: Instant, now: Instant, limits: Limits)
    requires MayEnd(l, wasClosed, before, limits) && before <= now && (wasClosed ==> isClosed)
    ensures MayEnd(l, isClosed, now, limits)
  {
  }

  lemma NewLookup(d: Desk, loose: set<nat>, clock: Instant, limits: Limits)
    requires Sound(d, loose, clock, limits)
    ensures d.nextLookup !in d.active
  {
    hide Counted, Busy, AllWalk, Timed;
  }

  ghost predicate SameBut(before: map<nat, Lookup>, after: map<nat, Lookup>, id: nat) {
    forall j :: j != id ==> (j in before <==> j in after) && (j in before ==> after[j] == before[j])
  }

  /** Nothing changed but for one lookup, which is further on. */
  ghost predicate MovedOn(before: map<nat, Lookup>, after: map<nat, Lookup>, id: nat) {
    SameBut(before, after, id) && (id in before <==> id in after) && (id in after ==> Onward(before[id], after[id]))
  }

  lemma MayAskBefore(before: map<nat, Lookup>, after: map<nat, Lookup>, id: nat, wasClosed: bool, isClosed: bool,
                     since: Instant, now: Instant)
    requires MovedOn(before, after, id) && id in after && MayAsk(after[id], isClosed, now)
    requires since <= now && (wasClosed ==> isClosed)
    ensures id in before && MayAsk(before[id], wasClosed, since)
  {
  }

  lemma MovedOnTwice(a: map<nat, Lookup>, b: map<nat, Lookup>, c: map<nat, Lookup>, id: nat)
    requires MovedOn(a, b, id) && MovedOn(b, c, id)
    ensures MovedOn(a, c, id)
  {
  }

  lemma MovedOnNot(a: map<nat, Lookup>, id: nat)
    ensures MovedOn(a, a, id)
  {
  }

  lemma MovedOnKeeps(a: map<nat, Lookup>, b: map<nat, Lookup>, id: nat)
    requires MovedOn(a, b, id)
    ensures SameBut(a, b, id) && (id in a <==> id in b) && (id in b ==> Onward(a[id], b[id]))
  {
  }

  lemma ReasonToEnd(l: Lookup, isClosed: bool, now: Instant, limits: Limits)
    ensures FinishReason(l, isClosed, now, limits).Some? <==> MayEnd(l, isClosed, now, limits)
  {
  }

  lemma StuckSendsNoMore(l: Lookup, wasClosed: bool, isClosed: bool, before: Instant, now: Instant, limits: Limits)
    requires Stuck(l, wasClosed, before, limits) && !MayEnd(l, isClosed, now, limits)
    requires before <= now && (wasClosed ==> isClosed)
    ensures SendsNoMore(l, limits)
  {
  }

  lemma StuckIsOver(l: Lookup, wasClosed: bool, isClosed: bool, before: Instant, now: Instant, limits: Limits)
    requires Workable(limits) && Stuck(l, wasClosed, before, limits) && before <= now && (wasClosed ==> isClosed)
    ensures FinishReason(l, isClosed, now, limits).Some? || l.outstanding > 0
  {
  }

  /** A lookup that may ask somebody: its receiver is there, its time is not over and it lacks peers. */
  ghost predicate MayAsk(l: Lookup, isClosed: bool, now: Instant) {
    !isClosed && l.deadline > now && |l.peers| < MAX_PEERS
  }

  /** The queries of lookups that are still active go on waiting for their answers, with the deadlines they had. */
  ghost predicate Keeps(before: map<QueryKey, Query>, after: map<QueryKey, Query>, live: set<nat>) {
    forall k :: k in before && before[k].lookup in live ==> k in after && after[k] == before[k]
  }

  /** The same, but for those whose deadline has come. */
  ghost predicate Awaits(before: map<QueryKey, Query>, after: map<QueryKey, Query>, live: set<nat>, now: Instant) {
    forall k :: k in before && before[k].lookup in live && before[k].deadline > now ==>
      k in after && after[k] == before[k]
  }

  lemma KeepsAll(pending: map<QueryKey, Query>, live: set<nat>)
    ensures Keeps(pending, pending, live)
  {
  }

  lemma KeepsTwice(a: map<QueryKey, Query>, b: map<QueryKey, Query>, c: map<QueryKey, Query>, live: set<nat>,
                   still: set<nat>)
    requires Keeps(a, b, live) && Keeps(b, c, still) && still <= live
    ensures Keeps(a, c, still)
  {
  }

  lemma AwaitsOn(a: map<QueryKey, Query>, b: map<QueryKey, Query>, c: map<QueryKey, Query>, live: set<nat>,
                 still: set<nat>, now: Instant)
    requires Awaits(a, b, live, now) && Keeps(b, c, still) && still <= live
    ensures Awaits(a, c, still, now)
  {
  }

  ghost predicate HeadAfter(expiry: seq<Due>, now: Instant) {
    expiry != [] ==> expiry[0].at > now
  }

  // ---------- choosing ----------

  /** The frontier's node nearest to the hash. */
  method Closest(frontier: seq<Node>, hash: NodeId) returns (i: nat)
    requires frontier != []
    ensures i < |frontier| && forall j :: 0 <= j < |frontier| ==> !Nearer(hash, frontier[j].id, frontier[i].id)
  {
    i := 0;
    LexEqual(Xor(frontier[0].id, hash), Xor(frontier[0].id, hash));
    for n := 1 to |frontier|
      invariant i < |frontier| && forall j :: 0 <= j < n ==> !Nearer(hash, frontier[j].id, frontier[i].id)
    {
      if Nearer(hash, frontier[n].id, frontier[i].id) {
        forall j | 0 <= j < n + 1 ensures !Nearer(hash, frontier[j].id, frontier[n].id) {
          if j == n {
            LexEqual(Xor(frontier[n].id, hash), Xor(frontier[n].id, hash));
          } else if Nearer(hash, frontier[j].id, frontier[n].id) {
            LexTransitive(Xor(frontier[j].id, hash), Xor(frontier[n].id, hash), Xor(frontier[i].id, hash));
          }
        }
        i := n;
      }
    }
  }

  lemma NoSources()
    ensures NoRepeats(Addrs([])) && Addrs([]) == []
  {
  }

  lemma SourceJoins(s: seq<Node>, n: Node)
    requires NoRepeats(Addrs(s)) && n.addr !in Addrs(s)
    ensures NoRepeats(Addrs(s + [n])) && Addrs(s + [n]) == Addrs(s) + [n.addr]
  {
    assert Addrs(s + [n]) == Addrs(s) + [n.addr];
    assert forall p :: 0 <= p < |Addrs(s)| ==> Addrs(s)[p] in Addrs(s);
  }

  /** The nodes that supplied the hash: of the right family, each endpoint once, eight at most. */
  method PickSources(nodes: seq<Node>, ipv6: Option<bool>) returns (s: seq<Node>, seen: set<Addr>)
    ensures s == Supplied(nodes, ipv6) && |s| <= MAX_SOURCES && NoRepeats(Addrs(s)) && seen == set a | a in Addrs(s)
    ensures forall n :: n in s ==> n in nodes && (ipv6.Some? ==> n.addr.V6? == ipv6.value)
  {
    hide NoRepeats, Addrs;
    s, seen := [], {};
    NoSources();
    for i := 0 to |nodes|
      invariant s == Supplied(nodes[..i], ipv6) && |s| <= MAX_SOURCES && NoRepeats(Addrs(s))
      invariant seen == set a | a in Addrs(s)
      invariant forall n :: n in s ==> n in nodes && (ipv6.Some? ==> n.addr.V6? == ipv6.value)
    {
      assert nodes[..i + 1][..i] == nodes[..i];
      if |s| == MAX_SOURCES {
        SuppliedFull(nodes, ipv6, i);
        return;
      }
      if (ipv6.None? || nodes[i].addr.V6? == ipv6.value) && nodes[i].addr !in seen {
        SourceJoins(s, nodes[i]);
        s := s + [nodes[i]];
        seen := seen + {nodes[i].addr};
      }
    }
    assert nodes[..|nodes|] == nodes;
  }

  /** Of the nodes in order: those of the right family, each endpoint once, eight at most. */
  ghost function Supplied(nodes: seq<Node>, ipv6: Option<bool>): seq<Node> {
    if nodes == [] then []
    else
      var before, next := Supplied(nodes[..|nodes| - 1], ipv6), nodes[|nodes| - 1];
      if |before| < MAX_SOURCES && (ipv6.None? || next.addr.V6? == ipv6.value) && next.addr !in Addrs(before)
      then before + [next] else before
  }

  lemma {:induction false} SuppliedFull(nodes: seq<Node>, ipv6: Option<bool>, i: nat)
    requires i <= |nodes| && |Supplied(nodes[..i], ipv6)| == MAX_SOURCES
    ensures Supplied(nodes, ipv6) == Supplied(nodes[..i], ipv6)
    decreases |nodes| - i
  {
    if i < |nodes| {
      assert nodes[..i + 1][..i] == nodes[..i];
      SuppliedFull(nodes, ipv6, i + 1);
    } else {
      assert nodes[..i] == nodes;
    }
  }

  /** The nodes whose endpoints are not in a set. */
  function Outside(nodes: seq<Node>, seen: set<Addr>): (r: seq<Node>)
    ensures |r| <= |nodes|
  {
    if nodes == [] then []
    else (if nodes[0].addr !in seen then [nodes[0]] else []) + Outside(nodes[1..], seen)
  }

  lemma {:induction false} OutsideNone(nodes: seq<Node>)
    ensures Outside(nodes, {}) == nodes
  {
    if nodes == [] {
    } else {
      OutsideNone(nodes[1..]);
    }
  }

  lemma {:induction false} OutsideMembers(nodes: seq<Node>, seen: set<Addr>)
    ensures forall n :: n in Outside(nodes, seen) <==> n in nodes && n.addr !in seen
  {
    if nodes == [] {
    } else {
      OutsideMembers(nodes[1..], seen);
      assert nodes == [nodes[0]] + nodes[1..];
    }
  }

  lemma NobodyToAsk(l: Lookup, nearest: seq<Node>)
    requires l.frontier == Outside(nearest, set a | a in Addrs(l.sources))
    ensures l.frontier == [] && l.sources == [] <==> nearest == [] && l.sources == []
  {
    OutsideNone(nearest);
    assert l.sources == [] ==> (set a | a in Addrs(l.sources)) == {};
  }

  lemma NotAgain(nodes: seq<Node>, n: Node)
    requires nodes != [] && NoRepeats(Addrs(nodes)) && n in nodes[1..]
    ensures n.addr != nodes[0].addr
  {
    var q :| 0 <= q < |nodes[1..]| && nodes[1..][q] == n;
    assert Addrs(nodes)[q + 1] == n.addr && Addrs(nodes)[0] == nodes[0].addr;
  }

  lemma PutFirst(a: Addr, s: seq<Addr>)
    requires NoRepeats(s) && a !in s
    ensures NoRepeats([a] + s)
  {
  }

  lemma AddrsJoined(a: seq<Node>, b: seq<Node>)
    ensures Addrs(a + b) == Addrs(a) + Addrs(b)
  {
  }

  lemma OutsideStep(nodes: seq<Node>, seen: set<Addr>)
    requires nodes != []
    ensures Addrs(Outside(nodes, seen))
         == (if nodes[0].addr !in seen then [nodes[0].addr] else []) + Addrs(Outside(nodes[1..], seen))
  {
    var first := if nodes[0].addr !in seen then [nodes[0]] else [];
    assert Addrs(first) == if nodes[0].addr !in seen then [nodes[0].addr] else [];
    AddrsJoined(first, Outside(nodes[1..], seen));
  }

  lemma DistinctTail(nodes: seq<Node>)
    requires nodes != [] && NoRepeats(Addrs(nodes))
    ensures NoRepeats(Addrs(nodes[1..]))
  {
    assert Addrs(nodes[1..]) == Addrs(nodes)[1..];
  }

  lemma HeadElsewhere(nodes: seq<Node>, seen: set<Addr>)
    requires nodes != [] && NoRepeats(Addrs(nodes))
    ensures nodes[0].addr !in Addrs(Outside(nodes[1..], seen))
  {
    var rest := Outside(nodes[1..], seen);
    OutsideMembers(nodes[1..], seen);
    hide Outside;
    forall p | 0 <= p < |rest| ensures Addrs(rest)[p] != nodes[0].addr {
      assert rest[p] in rest;
      NotAgain(nodes, rest[p]);
    }
  }

  lemma {:induction false} OutsideDistinct(nodes: seq<Node>, seen: set<Addr>)
    requires NoRepeats(Addrs(nodes))
    ensures NoRepeats(Addrs(Outside(nodes, seen)))
  {
    if nodes == [] {
    } else {
      DistinctTail(nodes);
      HeadElsewhere(nodes, seen);
      OutsideStep(nodes, seen);
      OutsideDistinct(nodes[1..], seen);
      hide NoRepeats, Addrs, Outside;
      var rest := Addrs(Outside(nodes[1..], seen));
      PutFirst(nodes[0].addr, rest);
      assert [] + rest == rest;
    }
  }

  lemma FirstSeen(sources: seq<Node>, nearest: seq<Node>, seen: set<Addr>)
    requires seen == set a | a in Addrs(sources)
    ensures seen + (set a | a in Addrs(Outside(nearest, seen))) == Endpoints(sources) + Endpoints(nearest)
  {
    AddrsAre(sources);
    AddrsAre(Outside(nearest, seen));
    OutsideMembers(nearest, seen);
    hide Addrs, Outside;
    forall a | a in Endpoints(nearest) ensures a in seen + Endpoints(Outside(nearest, seen)) {
      var n :| n in nearest && n.addr == a;
      assert a !in seen ==> n in Outside(nearest, seen);
    }
  }

  lemma AddrsAre(nodes: seq<Node>)
    ensures forall a :: a in Addrs(nodes) <==> a in Endpoints(nodes)
  {
    forall n | n in nodes ensures n.addr in Addrs(nodes) {
      var i :| 0 <= i < |nodes| && nodes[i] == n;
      assert Addrs(nodes)[i] == n.addr;
    }
  }

  lemma WalksFirst(l: Lookup, limits: Limits)
    requires NoRepeats(Addrs(l.sources)) && NoRepeats(Addrs(l.frontier)) && l.queried == l.outstanding == 0
    requires l.peers == {}
    requires forall n, m :: n in l.sources && m in l.frontier ==> n.addr != m.addr
    requires l.seen == (set a | a in Addrs(l.sources)) + (set a | a in Addrs(l.frontier))
    requires |l.frontier| <= MAX_FRONTIER
    ensures Walks(l, [], limits)
  {
    assert [] + (Addrs(l.sources) + Addrs(l.frontier)) == Addrs(l.sources) + Addrs(l.frontier);
    BothDistinct(l.sources, l.frontier);
    hide Addrs, NoRepeats;
  }

  lemma BothDistinct(a: seq<Node>, b: seq<Node>)
    requires NoRepeats(Addrs(a)) && NoRepeats(Addrs(b))
    requires forall n, m :: n in a && m in b ==> n.addr != m.addr
    ensures NoRepeats(Addrs(a) + Addrs(b))
  {
    forall i, j | 0 <= i < |a| && 0 <= j < |b| ensures Addrs(a)[i] != Addrs(b)[j] {
      assert a[i] in a && b[j] in b;
    }
  }

  class PeerLookupActor {
    const limits: Limits
    const hasV4: bool
    const hasV6: bool
    /** Whether the query with a number leaves the socket, as it turns out. */
    const leaves: nat -> bool
    /** When the receiver of a lookup goes away, if it does, as it turns out. */
    const gone: nat -> Option<Instant>
    var active: map<nat, Lookup>
    var pending: map<QueryKey, Query>
    var expiry: seq<Due>
    var nextLookup: nat
    var nextTid: nat
    var budget: Bucket
    /** The latest time read. */
    var clock: Instant
    /** When each listed query was sent, and which endpoints each lookup has asked, in order. */
    ghost var sent: seq<Instant>
    ghost var asked: map<nat, seq<Addr>>
    /** The lookups that are over, as they were at their end. */
    ghost var ended: map<nat, Lookup>

    ghost function View(): Desk
      reads this
    {
      Desk(active, pending, expiry, nextLookup, nextTid, sent, asked)
    }

    ghost predicate Orderly(loose: set<nat>)
      reads this
    {
      Sound(View(), loose, clock, limits) && budget.Valid()
    }

    ghost predicate Valid()
      reads this
    {
      Orderly({})
    }

    constructor (l: Limits, perSecond: nat, burst: nat, v4: bool, v6: bool, sends: nat -> bool,
                 leaving: nat -> Option<Instant>, now: Instant)
      requires Workable(l)
      ensures Valid() && limits == l && hasV4 == v4 && hasV6 == v6 && leaves == sends && gone == leaving
      ensures active == ended == map[] && clock == now && budget == NewBucket(perSecond, burst, false, true, now)
    {
      limits, hasV4, hasV6, leaves, gone := l, v4, v6, sends, leaving;
      active, pending, expiry, nextLookup, nextTid := map[], map[], [], 1, 1;
      budget := NewBucket(perSecond, burst, false, true, now);
      clock, sent, asked, ended := now, [], map[], map[];
    }

    /** The query with this number to this endpoint is sent. */
    predicate Departs(addr: Addr, tid: nat) {
      leaves(tid) && if addr.V4? then hasV4 else hasV6
    }

    /** Of the queries to these endpoints, numbered from `tid` on, those that are sent. */
    ghost function Departing(addrs: seq<Addr>, tid: nat): set<QueryKey> {
      if addrs == [] then {}
      else
        var n := |addrs| - 1;
        Departing(addrs[..n], tid) + (if Departs(addrs[n], tid + n) then {QueryKey(addrs[n], tid + n)} else {})
    }

    /** The receiver of the lookup has gone away. */
    predicate Gone(id: nat, now: Instant) {
      gone(id).Some? && gone(id).value <= now
    }

    /** A lookup that was like this is over, and had come to an end by now. */
    ghost predicate Over(id: nat, was: Lookup)
      reads this
    {
      id in ended && Onward(was, ended[id]) && MayEnd(ended[id], Gone(id, clock), clock, limits)
    }

    /** Every one of these lookups goes on or is over. */
    ghost predicate Accounted(was: map<nat, Lookup>)
      reads this
    {
      && (forall j :: j in active ==> j in was)
      && (forall j :: j in was ==> if j in active then Onward(was[j], active[j]) else Over(j, was[j]))
    }

    /** In every state between steps: each lookup's count of outstanding queries is its number of pending ones, at least
        one and no more than allowed; no query belongs to a lookup that is over; no endpoint is asked twice by a lookup;
        no lookup asks more than allowed; and each has as many queries out as allowed, unless it has spent its queries
        or has nobody left to ask. */
    lemma Safety(id: nat)
      requires Valid() && id in active
      ensures active[id].outstanding == |Of(pending, id)| && 1 <= active[id].outstanding <= limits.maxConcurrent
      ensures active[id].outstanding == limits.maxConcurrent || active[id].queried == limits.maxQueries
        || (active[id].frontier == [] && active[id].sources == [])
      ensures forall k :: k in pending ==> pending[k].lookup in active
      ensures id in asked && NoRepeats(asked[id]) && |asked[id]| == active[id].queried <= limits.maxQueries
      ensures forall a :: a in active[id].seen <==>
        a in asked[id] || a in Addrs(active[id].sources) || a in Addrs(active[id].frontier)
    {
      WalkOf(View(), {}, clock, limits, id);
      assert forall i :: 0 <= i < |asked[id]| ==>
        (asked[id] + (Addrs(active[id].sources) + Addrs(active[id].frontier)))[i] == asked[id][i];
      hide Timed, Numbered, AllWalk, Addrs;
    }

    method ReadClock(ghost loose: set<nat>) returns (now: Instant)
      requires Orderly(loose)
      modifies this`clock
      ensures Orderly(loose) && now == clock >= old(clock)
    {
      hide Sound;
      now :| now >= clock;
      SoundLater(View(), loose, clock, now, limits);
      clock := now;
    }

    /** Send one more query for a lookup if it may have one; one that does not leave still counts as asked. */
    method DispatchOne(id: nat, ghost loose: set<nat>, ghost since: Instant) returns (more: bool, ghost addr: Addr)
      requires Orderly(loose) && id in loose && since <= clock
      modifies this
      ensures nextLookup == old(nextLookup) && budget == old(budget) && ended == old(ended)
      ensures Orderly(loose) && clock >= old(clock)
      ensures !more ==>
        && (id in active ==> Stuck(active[id], Gone(id, clock), clock, limits))
        && nextTid == old(nextTid) && asked == old(asked) && pending == old(pending)
      ensures more ==>
        && id in active && id in old(active) && active[id].queried == old(active)[id].queried + 1 <= limits.maxQueries
        && BestChoice(old(active)[id], addr) && MayAsk(old(active)[id], Gone(id, old(clock)), old(clock))
        && Asks(id, [addr], old(asked), asked, old(pending).Keys, pending.Keys, old(nextTid), nextTid)
      ensures HeadAfter(old(expiry), since) ==> HeadAfter(expiry, since)
      ensures MovedOn(old(active), active, id) && Keeps(old(pending), pending, active.Keys)
    {
      hide Sound, HeadAfter, BestChoice, PeerLookupActor.Departing;
      var now := ReadClock(loose);
      if id !in active || Stuck(active[id], Gone(id, now), now, limits) {
        return false, *;
      }
      var next := AskNext(id, loose, since);
      return true, next;
    }

    /** Ask a lookup's next endpoint. */
    method AskNext(id: nat, ghost loose: set<nat>, ghost since: Instant) returns (addr: Addr)
      requires Orderly(loose) && id in loose && since <= clock
      requires id in active && !Stuck(active[id], Gone(id, clock), clock, limits)
      modifies this`active, this`asked, this`nextTid, this`pending, this`expiry, this`clock, this`sent
      ensures Orderly(loose) && clock >= old(clock) && (HeadAfter(old(expiry), since) ==> HeadAfter(expiry, since))
      ensures active.Keys == old(active).Keys && forall j :: j in active && j != id ==> active[j] == old(active)[j]
      ensures Onward(old(active)[id], active[id]) && BestChoice(old(active)[id], addr)
      ensures active[id].queried == old(active)[id].queried + 1 <= limits.maxQueries
      ensures Asks(id, [addr], old(asked), asked, old(pending).Keys, pending.Keys, old(nextTid), nextTid)
      ensures Keeps(old(pending), pending, active.Keys)
      ensures QueryKey(addr, old(nextTid)) in pending <==>
        leaves(old(nextTid)) && ((addr.V4? && hasV4) || (addr.V6? && hasV6))
    {
      hide Sound, HeadAfter, BestChoice, PeerLookupActor.Departing;
      addr := PopClosest(id, loose);
      DepartingMore([], addr, nextTid - 1);
      if Departs(addr, nextTid - 1) {
        Enter(id, addr, loose, since);
      }
    }

    /** The lookup asked these endpoints, in order and with consecutive numbers; and those queries that left are
        pending. */
    ghost predicate Asks(id: nat, addrs: seq<Addr>, asked0: map<nat, seq<Addr>>, asked1: map<nat, seq<Addr>>,
                         keys0: set<QueryKey>, keys1: set<QueryKey>, tid0: nat, tid1: nat) {
      && tid1 == tid0 + |addrs| && keys1 == keys0 + Departing(addrs, tid0)
      && (if addrs == [] then asked1 == asked0 else id in asked0 && asked1 == asked0[id := asked0[id] + addrs])
    }

    lemma FirstAsks(id: nat, addrs: seq<Addr>, asked0: map<nat, seq<Addr>>, asked1: map<nat, seq<Addr>>,
                    keys0: set<QueryKey>, keys1: set<QueryKey>, tid0: nat, tid1: nat)
      requires Asks(id, addrs, asked0, asked1, keys0, keys1, tid0, tid1) && id in asked0 && asked0[id] == []
      ensures id in asked1 && asked1[id] == addrs && keys1 == keys0 + Departing(addrs, tid0)
    {
      hide PeerLookupActor.Departing;
      assert [] + addrs == addrs;
    }

    lemma NoneAsked(id: nat, addrs: seq<Addr>, asked0: map<nat, seq<Addr>>, asked1: map<nat, seq<Addr>>,
                    keys0: set<QueryKey>, keys1: set<QueryKey>, tid0: nat, tid1: nat)
      requires Asks(id, addrs, asked0, asked1, keys0, keys1, tid0, tid1)
      ensures addrs == [] ==> asked1 == asked0 && tid1 == tid0
    {
    }

    lemma AsksMore(id: nat, addrs: seq<Addr>, addr: Addr, asked0: map<nat, seq<Addr>>, asked1: map<nat, seq<Addr>>,
                   asked2: map<nat, seq<Addr>>, keys0: set<QueryKey>, keys1: set<QueryKey>, keys2: set<QueryKey>,
                   tid0: nat, tid1: nat, tid2: nat)
      requires Asks(id, addrs, asked0, asked1, keys0, keys1, tid0, tid1)
      requires Asks(id, [addr], asked1, asked2, keys1, keys2, tid1, tid2)
      ensures Asks(id, addrs + [addr], asked0, asked2, keys0, keys2, tid0, tid2)
    {
      hide PeerLookupActor.Departing;
      DepartingMore(addrs, addr, tid0);
      assert [] + [addr] == [addr];
      if addrs != [] {
        assert asked0[id] + (addrs + [addr]) == (asked0[id] + addrs) + [addr];
      }
    }

    /** Take a lookup's next endpoint: a node that supplied the hash, else the nearest of the frontier. */
    method PopClosest(id: nat, ghost loose: set<nat>) returns (addr: Addr)
      requires Orderly(loose) && id in loose && id in active && active[id].queried < limits.maxQueries
      requires active[id].sources != [] || active[id].frontier != []
      modifies this`active, this`asked, this`nextTid
      ensures Orderly(loose) && nextTid == old(nextTid) + 1 && QueryKey(addr, nextTid - 1) !in pending
      ensures active.Keys == old(active).Keys && forall j :: j in active && j != id ==> active[j] == old(active)[j]
      ensures Onward(old(active)[id], active[id]) && active[id].queried == old(active)[id].queried + 1
      ensures active[id].outstanding == old(active)[id].outstanding && BestChoice(old(active)[id], addr)
      ensures id in old(asked) && asked == old(asked)[id := old(asked)[id] + [addr]] && addr !in old(asked)[id]
    {
      hide Sound, Taken, Nearer;
      var i := 0;
      if active[id].sources == [] {
        i := Closest(active[id].frontier, active[id].hash);
      }
      SoundChosen(View(), loose, clock, limits, id, i);
      TakenKeeps(active[id], i);
      NewKeys(View(), loose, clock, limits);
      addr := Next(active[id], i).addr;
      asked := asked[id := asked[id] + [addr]];
      active := active[id := Taken(active[id], i)];
      nextTid := nextTid + 1;
    }

    /** A query has left: wait for its answer, but not beyond the lookup's own deadline. */
    method Enter(id: nat, addr: Addr, ghost loose: set<nat>, ghost since: Instant)
      requires Orderly(loose) && id in loose && since <= clock
      requires id in active && active[id].outstanding < limits.maxConcurrent
      requires nextTid > 0 && QueryKey(addr, nextTid - 1) !in pending && active[id].deadline > since
      modifies this`active, this`pending, this`expiry, this`clock, this`sent
      ensures Orderly(loose) && clock >= old(clock)
      ensures active == old(active)[id := old(active)[id].(outstanding := old(active)[id].outstanding + 1)]
      ensures pending.Keys == old(pending).Keys + {QueryKey(addr, nextTid - 1)}
      ensures pending[QueryKey(addr, nextTid - 1)].lookup == id && Keeps(old(pending), pending, active.Keys)
      ensures HeadAfter(old(expiry), since) ==> HeadAfter(expiry, since)
    {
      hide Sound, HeadAfter;
      var now := ReadClock(loose);
      var late := now + limits.queryTimeout;
      var deadline := if late < active[id].deadline then late else active[id].deadline;
      EnterOk(View(), loose, clock, limits, id, addr, deadline, since);
      active := active[id := active[id].(outstanding := active[id].outstanding + 1)];
      pending := pending[QueryKey(addr, nextTid - 1) := Query(id, deadline)];
      expiry := expiry + [Due(deadline, QueryKey(addr, nextTid - 1))];
      sent := sent + [now];
    }

    /** Send queries for a lookup as long as it may. */
    method DispatchAll(id: nat, ghost loose: set<nat>, ghost since: Instant) returns (ghost addrs: seq<Addr>)
      requires Orderly(loose) && id in loose && since <= clock
      modifies this
      ensures nextLookup == old(nextLookup) && budget == old(budget) && ended == old(ended)
      ensures Asks(id, addrs, old(asked), asked, old(pending).Keys, pending.Keys, old(nextTid), nextTid)
      ensures Orderly(loose) && clock >= old(clock) && (HeadAfter(old(expiry), since) ==> HeadAfter(expiry, since))
      ensures MovedOn(old(active), active, id) && (id in active ==> Stuck(active[id], Gone(id, clock), clock, limits))
      ensures active.Keys == old(active).Keys && Keeps(old(pending), pending, active.Keys)
      ensures addrs != [] ==> id in old(active) && MayAsk(old(active)[id], Gone(id, old(clock)), old(clock))
    {
      var more := true;
      addrs := [];
      assert Asks(id, [], asked, asked, pending.Keys, pending.Keys, nextTid, nextTid);
      hide Sound, Stuck, HeadAfter, BestChoice, PeerLookupActor.Asks, MovedOn, Keeps, MayAsk;
      MovedOnNot(active, id);
      while more
        invariant nextLookup == old(nextLookup) && budget == old(budget) && ended == old(ended)
        invariant Asks(id, addrs, old(asked), asked, old(pending).Keys, pending.Keys, old(nextTid), nextTid)
        invariant Orderly(loose) && clock >= old(clock) && (HeadAfter(old(expiry), since) ==> HeadAfter(expiry, since))
        invariant !more ==> id in active ==> Stuck(active[id], Gone(id, clock), clock, limits)
        invariant MovedOn(old(active), active, id) && active.Keys == old(active).Keys
        invariant Keeps(old(pending), pending, active.Keys)
        invariant addrs != [] ==> id in old(active) && MayAsk(old(active)[id], Gone(id, old(clock)), old(clock))
        decreases more, if id in active then limits.maxQueries - active[id].queried else 0
      {
        ghost var addr, mid, held, tid, before, at := *, asked, pending, nextTid, active, clock;
        more, addr := DispatchOne(id, loose, since);
        MovedOnTwice(old(active), before, active, id);
        KeepsTwice(old(pending), held, pending, before.Keys, active.Keys);
        if more {
          MayAskBefore(old(active), before, id, Gone(id, old(clock)), Gone(id, at), old(clock), at);
          AsksMore(id, addrs, addr, old(asked), mid, asked, old(pending).Keys, held.Keys, pending.Keys, old(nextTid),
                   tid, nextTid);
          addrs := addrs + [addr];
        }
      }
    }

    lemma DepartingMore(addrs: seq<Addr>, addr: Addr, tid: nat)
      ensures Departing([], tid) == {}
      ensures Departing(addrs + [addr], tid) == Departing(addrs, tid) + Departing([addr], tid + |addrs|)
      ensures Departing([addr], tid) == if Departs(addr, tid) then {QueryKey(addr, tid)} else {}
    {
      assert (addrs + [addr])[..|addrs|] == addrs && [addr][..0] == [];
      hide PeerLookupActor.Departs;
    }

    /** Send queries for a lookup as long as it may, then close it if it is over. */
    method DispatchMore(id: nat, ghost loose: set<nat>, ghost since: Instant) returns (ghost addrs: seq<Addr>)
      requires Orderly(loose) && id in loose && since <= clock
      modifies this
      ensures nextLookup == old(nextLookup) && budget == old(budget)
      ensures Orderly(loose - {id}) && clock >= old(clock)
      ensures HeadAfter(old(expiry), since) ==> HeadAfter(expiry, since)
      ensures Keeps(old(pending), pending, active.Keys)
      ensures if addrs == [] then asked == old(asked) && nextTid == old(nextTid)
              else id in old(active) && MayAsk(old(active)[id], Gone(id, old(clock)), old(clock))
      ensures SameBut(old(active), active, id) && (id in active ==> id in old(active))
      ensures if id in old(active) && id !in active
              then Over(id, old(active)[id]) && ended == old(ended)[id := ended[id]] else ended == old(ended)
      ensures id in active ==>
        && Onward(old(active)[id], active[id]) && !MayEnd(active[id], Gone(id, clock), clock, limits)
        && SendsNoMore(active[id], limits)
        && Asks(id, addrs, old(asked), asked, old(pending).Keys, pending.Keys, old(nextTid), nextTid)
    {
      hide Sound, Stuck, FinishReason, HeadAfter, MayEnd, SendsNoMore, PeerLookupActor.Asks, MovedOn, MayAsk;
      addrs := DispatchAll(id, loose, since);
      NoneAsked(id, addrs, old(asked), asked, old(pending).Keys, pending.Keys, old(nextTid), nextTid);
      MovedOnKeeps(old(active), active, id);
      ghost var before, was, held, live := clock, Gone(id, clock), pending, active.Keys;
      FinishIfComplete(id, loose);
      KeepsTwice(old(pending), held, pending, live, active.Keys);
      if id in active { StuckSendsNoMore(active[id], was, Gone(id, clock), before, clock, limits); }
    }

    /** Close a lookup if it is over; one that can send nothing and goes on waits for a query. */
    method FinishIfComplete(id: nat, ghost loose: set<nat>)
      requires Orderly(loose) && (id in active ==> Stuck(active[id], Gone(id, clock), clock, limits))
      modifies this`active, this`pending, this`clock, this`ended
      ensures Orderly(loose - {id}) && clock >= old(clock)
      ensures if id in old(active) && MayEnd(old(active)[id], Gone(id, clock), clock, limits)
              then active == old(active) - {id} && ended == old(ended)[id := old(active)[id]]
              else active == old(active) && pending == old(pending) && ended == old(ended)
      ensures Keeps(old(pending), pending, active.Keys)
    {
      hide Sound, Stuck, FinishReason, Workable, MayEnd, SendsNoMore, Keeps;
      LimitsWork(View(), loose, clock, limits);
      KeepsAll(pending, active.Keys);
      ghost var before, was := clock, Gone(id, clock);
      var now := ReadClock(loose);
      if id in active { ReasonToEnd(active[id], Gone(id, now), now, limits); }
      if id in active && FinishReason(active[id], Gone(id, now), now, limits).Some? {
        FinishLookup(id, loose);
      } else {
        if id in active {
          StuckIsOver(active[id], was, Gone(id, now), before, now, limits);
          StuckSendsNoMore(active[id], was, Gone(id, now), before, now, limits);
        }
        SoundTight(View(), loose, clock, limits, id);
      }
    }

    /** A lookup is over: forget it and its queries. */
    method FinishLookup(id: nat, ghost loose: set<nat>)
      requires Orderly(loose)
      modifies this`active, this`pending, this`ended
      ensures Orderly(loose - {id}) && active == old(active) - {id}
      ensures ended == if id in old(active) then old(ended)[id := old(active)[id]] else old(ended)
      ensures Keeps(old(pending), pending, active.Keys)
      ensures forall k :: k in pending ==> k in old(pending) && pending[k] == old(pending)[k] && pending[k].lookup != id
    {
      hide Sound;
      SoundFinished(View(), loose, clock, limits, id);
      ended := if id in active then ended[id := active[id]] else ended;
      active := active - {id};
      pending := map k | k in pending && pending[k].lookup != id :: pending[k];
    }

    /** Whether a request is turned down: its asker is gone, or there is no room or no token for it. */
    ghost predicate Refuses(isClosed: bool, now: Instant)
      requires budget.Valid()
      reads this
    {
      isClosed || |active| >= limits.maxActive || !TakeExact(budget, 1, now).1
    }

    /** A request for the peers of a hash. `nearest` are the routing table's nodes nearest to it, no endpoint twice. */
    method StartLookup(hash: NodeId, isClosed: bool, nearest: seq<Node>, suppliers: seq<Node>, now: Instant)
      requires Valid() && clock <= now && NoRepeats(Addrs(nearest)) && |nearest| <= MAX_FRONTIER
      modifies this
      ensures Valid() && clock >= now
      ensures if old(Refuses(isClosed, now)) || (nearest == [] && Supplied(suppliers, Family()) == [])
              then View() == old(View()) else nextLookup == old(nextLookup) + 1
      ensures budget == if isClosed || |old(active)| >= limits.maxActive then old(budget)
                        else TakeExact(old(budget), 1, now).0
      ensures active.Keys <= old(active).Keys + {old(nextLookup)}
      ensures forall j :: j in active && j != old(nextLookup) ==> j in old(active) && active[j] == old(active)[j]
      ensures forall j :: j in old(active) ==> j in active
      ensures Keeps(old(pending), pending, active.Keys)
      ensures nextLookup > old(nextLookup) ==>
        var id := old(nextLookup);
        && id !in old(active)
        && (if id in active
            then Starts(active[id], hash, nearest, suppliers, now) && SendsNoMore(active[id], limits) && id in asked
                 && pending.Keys == old(pending).Keys + Departing(asked[id], old(nextTid))
            else id in ended && Starts(ended[id], hash, nearest, suppliers, now)
                 && MayEnd(ended[id], Gone(id, clock), clock, limits))
    {
      hide Sound, TakeExact, MayEnd, SendsNoMore, PeerLookupActor.Departing, PeerLookupActor.Starts, Outside, Walks,
           Supplied;
      NewLookup(View(), {}, clock, limits);
      SoundLater(View(), {}, clock, now, limits);
      clock := now;
      if isClosed || |active| >= limits.maxActive {
        return;
      }
      TakeExactLevel(budget, 1, now);
      var taken := TakeExact(budget, 1, now);
      budget := taken.0;
      if !taken.1 {
        return;
      }
      var l := FirstSteps(hash, nearest, suppliers, now);
      NobodyToAsk(l, nearest);
      if l.frontier == [] && l.sources == [] {
        return;
      }
      ghost var id := nextLookup;
      Begin(l);
      StartsOn(l, if id in active then active[id] else ended[id], hash, nearest, suppliers, now);
    }

    lemma StartsOn(l: Lookup, m: Lookup, hash: NodeId, nearest: seq<Node>, suppliers: seq<Node>, now: Instant)
      requires Starts(l, hash, nearest, suppliers, now) && Onward(l, m)
      ensures Starts(m, hash, nearest, suppliers, now)
    {
    }

    /** A lookup for the hash that started from the suppliers and the nearest nodes. */
    ghost predicate Starts(l: Lookup, hash: NodeId, nearest: seq<Node>, suppliers: seq<Node>, now: Instant) {
      && l.hash == hash && l.deadline == now + limits.lookupTimeout && l.peers == {}
      && l.seen == Endpoints(Supplied(suppliers, Family())) + Endpoints(nearest)
    }

    /** Enter a new lookup and send its first queries. */
    method Begin(l: Lookup)
      requires Valid() && Walks(l, [], limits) && l.outstanding == 0
      modifies this
      ensures Valid() && clock >= old(clock) && active.Keys <= old(active).Keys + {old(nextLookup)}
      ensures forall j :: j in active && j != old(nextLookup) ==> j in old(active) && active[j] == old(active)[j]
      ensures old(nextLookup) in active ==> Onward(l, active[old(nextLookup)])
      ensures nextLookup == old(nextLookup) + 1 && budget == old(budget)
      ensures old(nextLookup) !in active ==> Over(old(nextLookup), l)
      ensures forall j :: j in old(active) && j != old(nextLookup) ==> j in active
      ensures Keeps(old(pending), pending, active.Keys)
      ensures old(nextLookup) in active ==>
        SendsNoMore(active[old(nextLookup)], limits)
        && old(nextLookup) in asked
        && pending.Keys == old(pending).Keys + Departing(asked[old(nextLookup)], old(nextTid))
    {
      hide Sound, Walks, FinishReason, HeadAfter, MayEnd, SendsNoMore, PeerLookupActor.Departing, PeerLookupActor.Asks,
           Keeps, MayAsk;
      SoundOpened(View(), {}, clock, limits, l);
      var id := nextLookup;
      asked := asked[id := []];
      active := active[id := l];
      nextLookup := id + 1;
      assert {} + {id} == {id};
      assert {id} - {id} == {};
      ghost var before := asked;
      ghost var addrs := DispatchMore(id, {id}, clock);
      if id in active {
        FirstAsks(id, addrs, before, asked, old(pending).Keys, pending.Keys, old(nextTid), nextTid);
      }
    }

    /** The one family that is served, if it is only one. */
    function Family(): (r: Option<bool>)
      ensures r == None <==> hasV4 == hasV6
      ensures r.Some? ==> r.value == hasV6
    {
      if hasV4 && !hasV6 then Some(false) else if !hasV4 && hasV6 then Some(true) else None
    }

    /** The lookup's first frontier: the nodes that supplied the hash first, then the nearest of the others. */
    method FirstSteps(hash: NodeId, nearest: seq<Node>, suppliers: seq<Node>, now: Instant) returns (l: Lookup)
      requires NoRepeats(Addrs(nearest)) && |nearest| <= MAX_FRONTIER
      ensures Walks(l, [], limits) && l.outstanding == 0 && l.hash == hash && l.deadline == now + limits.lookupTimeout
      ensures l.sources == Supplied(suppliers, Family())
      ensures l.frontier == Outside(nearest, set a | a in Addrs(l.sources))
      ensures Starts(l, hash, nearest, suppliers, now)
    {
      var ipv6 := Family();
      var sources, seen := PickSources(suppliers, ipv6);
      var frontier := Outside(nearest, seen);
      OutsideDistinct(nearest, seen);
      OutsideMembers(nearest, seen);
      forall n, m | n in sources && m in frontier ensures n.addr != m.addr {
        var i :| 0 <= i < |sources| && sources[i] == n;
        assert Addrs(sources)[i] == n.addr && n.addr in Addrs(sources);
      }
      hide NoRepeats, Walks, Outside;
      FirstSeen(sources, nearest, seen);
      l := Lookup(hash, frontier, sources, seen + (set a | a in Addrs(frontier)), {}, 0, 0, now + limits.lookupTimeout);
      WalksFirst(l, limits);
    }

    /** A reply to a pending query. After its lookup's deadline it ends the lookup; before, it brings peers and
        nodes not seen so far, and the lookup goes on. */
    method HandleResponse(addr: Addr, tid: nat, peers: seq<Addr>, nodes: seq<Node>, now: Instant)
      returns (ghost addrs: seq<Addr>)
      requires Valid() && clock <= now
      modifies this
      ensures Valid() && clock >= now
      ensures if QueryKey(addr, tid) !in old(pending) then View() == old(View())
              else
                var id := old(pending)[QueryKey(addr, tid)].lookup;
                && id in old(active) && SameBut(old(active), active, id)
                && Keeps(old(pending) - {QueryKey(addr, tid)}, pending, active.Keys)
                && (old(active)[id].deadline <= now ==> id !in active && addrs == [])
                && (id !in active ==> id in ended && MayEnd(ended[id], Gone(id, clock), clock, limits))
                && (if addrs == [] then asked == old(asked) && nextTid == old(nextTid)
                    else |(if id in active then active[id] else ended[id]).peers| < MAX_PEERS)
                && (old(active)[id].deadline > now ==>
                      var l := if id in active then active[id] else ended[id];
                      Heard(old(active)[id], l, peers) && Met(old(active)[id], l, nodes))
                && (id in active ==>
                      SendsNoMore(active[id], limits)
                      && Asks(id, addrs, old(asked), asked, old(pending).Keys - {QueryKey(addr, tid)}, pending.Keys,
                              old(nextTid), nextTid))
                && (id in active ==>
                      id in asked && forall a :: a in active[id].seen ==> a in asked[id] || Waits(active[id], a))
    {
      hide Sound, MayEnd, SendsNoMore, PeerLookupActor.Asks, Heard, Met, Waits;
      addrs := [];
      SoundLater(View(), {}, clock, now, limits);
      clock := now;
      var key := QueryKey(addr, tid);
      if key !in pending {
        return;
      }
      PendingKnown(View(), {}, clock, limits, key);
      var id := pending[key].lookup;
      if active[id].deadline <= now {
        PastDeadline(active[id], Gone(id, clock), clock, limits);
        FinishLookup(id, {});
        assert {} - {id} == {};
        return;
      }
      TakeAnswer(key, id, peers, nodes);
      ghost var was, learned := old(active)[id], active[id];
      assert {id} - {id} == {};
      addrs := DispatchMore(id, {id}, clock);
      HeardOn(was, learned, if id in active then active[id] else ended[id], peers, nodes);
      if id in active {
        SeenWaits(View(), {}, clock, limits, id);
      }
    }

    /** The answer to a query is in: the lookup waits for one less, and knows what the answer says. */
    method TakeAnswer(key: QueryKey, id: nat, peers: seq<Addr>, nodes: seq<Node>)
      requires Valid() && key in pending && id == pending[key].lookup
      modifies this`active, this`pending
      ensures Orderly({id}) && id in old(active) && id in active && SameBut(old(active), active, id)
      ensures pending == old(pending) - {key}
      ensures Heard(old(active)[id], active[id], peers) && Met(old(active)[id], active[id], nodes)
    {
      hide Sound, Newcomers;
      SoundClosed(View(), {}, clock, limits, key);
      active := active[id := active[id].(outstanding := Less1(active[id].outstanding))];
      pending := pending - {key};
      assert {} + {id} == {id};
      Learn(id, peers, nodes, {id});
    }

    /** Note new peers up to the limit, and put nodes not seen before on the frontier while it has room. */
    method Learn(id: nat, peers: seq<Addr>, nodes: seq<Node>, ghost loose: set<nat>)
      requires Orderly(loose) && id in loose && id in active
      modifies this`active
      ensures Orderly(loose) && active.Keys == old(active).Keys
      ensures forall j :: j in active && j != id ==> active[j] == old(active)[j]
      ensures Heard(old(active)[id], active[id], peers) && Met(old(active)[id], active[id], nodes)
    {
      WalkOf(View(), loose, clock, limits, id);
      hide Sound, Walks, Newcomers, Room, Endpoints;
      var l := active[id];
      l := LearnPeers(l, peers, asked[id]);
      l := LearnNodes(l, nodes, asked[id]);
      SoundLearned(View(), loose, clock, limits, id, l);
      active := active[id := l];
    }

    method LearnPeers(l: Lookup, peers: seq<Addr>, ghost path: seq<Addr>) returns (r: Lookup)
      requires Walks(l, path, limits)
      ensures Walks(r, path, limits) && r == l.(peers := r.peers) && Heard(l, r, peers)
    {
      r := l;
      for i := 0 to |peers|
        invariant Walks(r, path, limits) && r == l.(peers := r.peers) && |r.peers| <= MAX_PEERS && l.peers <= r.peers
        invariant forall j :: 0 <= j < i ==> peers[j] in r.peers || |r.peers| == MAX_PEERS
        invariant forall p :: p in r.peers ==> p in l.peers || p in peers
      {
        if |r.peers| < MAX_PEERS {
          r := r.(peers := r.peers + {peers[i]});
        }
      }
    }

    method LearnNodes(l: Lookup, nodes: seq<Node>, ghost path: seq<Addr>) returns (r: Lookup)
      requires Walks(l, path, limits)
      ensures Walks(r, path, limits) && r == l.(frontier := r.frontier, seen := r.seen)
      ensures r.frontier == l.frontier + Newcomers(nodes, l.seen, Room(l)) && Met(l, r, nodes)
    {
      hide Walks;
      FrontierFits(l, path, limits);
      r := l;
      assert nodes[0..] == nodes;
      for i := 0 to |nodes|
        invariant Walks(r, path, limits) && r == l.(frontier := r.frontier, seen := r.seen)
        invariant |r.frontier| <= MAX_FRONTIER
        invariant r.frontier + Newcomers(nodes[i..], r.seen, Room(r)) == l.frontier + Newcomers(nodes, l.seen, Room(l))
        invariant r.seen + Endpoints(Newcomers(nodes[i..], r.seen, Room(r))) ==
          l.seen + Endpoints(Newcomers(nodes, l.seen, Room(l)))
      {
        if |r.frontier| >= MAX_FRONTIER {
          return;
        }
        assert nodes[i..][1..] == nodes[i + 1..];
        if nodes[i].addr !in r.seen {
          WalksJoined(r, path, nodes[i], limits);
          NewcomersNext(nodes[i..], r.seen, Room(r));
          r := r.(frontier := r.frontier + [nodes[i]], seen := r.seen + {nodes[i].addr});
        }
      }
    }

    /** Maintenance: give up on queries that are overdue, send others in their place, and close lookups that are over.
        Afterwards nothing is overdue, neither lookup nor query. */
    method Expire(now: Instant)
      requires Valid() && clock <= now
      modifies this
      ensures Valid() && clock >= now
      ensures forall id :: id in active ==> active[id].deadline > now
      ensures forall k :: k in pending ==> pending[k].deadline > now
      ensures Accounted(old(active)) && Awaits(old(pending), pending, active.Keys, now)
    {
      hide Sound, HeadAfter, MayEnd, Awaits;
      SoundLater(View(), {}, clock, now, limits);
      clock := now;
      var affected := TimeOut(now);
      Redispatch(affected, now, old(active), old(pending));
      CloseOver(now, old(active), old(pending));
      NoneOverdue(View(), {}, clock, limits, now);
    }

    /** Drop the queries at the head of the list whose time is over. */
    method TimeOut(now: Instant) returns (affected: set<nat>)
      requires Valid() && clock == now
      modifies this`active, this`pending, this`expiry, this`sent
      ensures Orderly(affected) && HeadAfter(expiry, now)
      ensures active.Keys == old(active).Keys && forall j :: j in active ==> Onward(old(active)[j], active[j])
      ensures Awaits(old(pending), pending, active.Keys, now)
    {
      hide Sound;
      affected := {};
      while expiry != [] && expiry[0].at <= now
        invariant Orderly(affected)
        invariant active.Keys == old(active).Keys && forall j :: j in active ==> Onward(old(active)[j], active[j])
        invariant Awaits(old(pending), pending, active.Keys, now)
        decreases |expiry|
      {
        affected := TimeOutHead(affected);
      }
    }

    method TimeOutHead(affected: set<nat>) returns (after: set<nat>)
      requires Orderly(affected) && expiry != []
      modifies this`active, this`pending, this`expiry, this`sent
      ensures Orderly(after) && expiry == old(expiry)[1..]
      ensures active.Keys == old(active).Keys && forall j :: j in active ==> Onward(old(active)[j], active[j])
      ensures forall k :: k in old(pending) && old(pending)[k].deadline != old(expiry)[0].at ==>
        k in pending && pending[k] == old(pending)[k]
    {
      hide Sound;
      after := affected;
      var d := expiry[0];
      if d.key in pending && pending[d.key].deadline == d.at {
        SoundClosed(View(), affected, clock, limits, d.key);
        var id := pending[d.key].lookup;
        active := active[id := active[id].(outstanding := Less1(active[id].outstanding))];
        pending := pending - {d.key};
        after := affected + {id};
      }
      SoundUnlisted(View(), after, clock, limits);
      expiry := expiry[1..];
      sent := sent[1..];
    }

    method Redispatch(affected: set<nat>, now: Instant, ghost was: map<nat, Lookup>, ghost held: map<QueryKey, Query>)
      requires Orderly(affected) && clock >= now && HeadAfter(expiry, now) && Accounted(was)
      requires Awaits(held, pending, active.Keys, now)
      modifies this
      ensures Valid() && clock >= now && HeadAfter(expiry, now) && Accounted(was)
      ensures Awaits(held, pending, active.Keys, now)
    {
      hide Sound, HeadAfter, PeerLookupActor.Accounted, Awaits, Keeps;
      var left := affected;
      while left != {}
        invariant Orderly(left) && clock >= now && HeadAfter(expiry, now) && Accounted(was)
        invariant Awaits(held, pending, active.Keys, now)
        decreases left
      {
        var id :| id in left;
        ghost var mid, live := pending, active.Keys;
        RedispatchOne(id, left, now, was);
        AwaitsOn(held, mid, pending, live, active.Keys, now);
        left := left - {id};
      }
    }

    method RedispatchOne(id: nat, ghost left: set<nat>, ghost now: Instant, ghost was: map<nat, Lookup>)
      requires Orderly(left) && id in left && clock >= now && HeadAfter(expiry, now) && Accounted(was)
      modifies this
      ensures Orderly(left - {id}) && clock >= now && HeadAfter(expiry, now) && Accounted(was)
      ensures active.Keys <= old(active).Keys && Keeps(old(pending), pending, active.Keys)
    {
      hide Sound, HeadAfter, MayEnd, SendsNoMore, PeerLookupActor.Departing, Keeps;
      ghost var before, over, going := clock, ended, active;
      ghost var addrs := DispatchMore(id, left, now);
      forall j | j in was && j !in going ensures Over(j, was[j]) {
        EndsLater(over[j], Gone(j, before), Gone(j, clock), before, clock, limits);
      }
    }

    /** Close every lookup that is over at `now`. */
    method CloseOver(now: Instant, ghost was: map<nat, Lookup>, ghost held: map<QueryKey, Query>)
      requires Valid() && clock >= now && Accounted(was) && Awaits(held, pending, active.Keys, now)
      modifies this`active, this`pending, this`ended
      ensures Valid() && Accounted(was) && Awaits(held, pending, active.Keys, now)
      ensures forall id :: id in active ==> FinishReason(active[id], Gone(id, now), now, limits).None?
    {
      hide Sound, FinishReason, PeerLookupActor.Accounted, Awaits, Keeps;
      while exists id :: id in active && FinishReason(active[id], Gone(id, now), now, limits).Some?
        invariant Valid() && clock >= now && Accounted(was) && Awaits(held, pending, active.Keys, now)
        decreases |active|
      {
        var id :| id in active && FinishReason(active[id], Gone(id, now), now, limits).Some?;
        SizeDrop(active, id);
        ghost var mid, live := pending, active.Keys;
        CloseOne(id, now, was);
        AwaitsOn(held, mid, pending, live, active.Keys, now);
      }
    }

    method CloseOne(id: nat, ghost now: Instant, ghost was: map<nat, Lookup>)
      requires Valid() && clock >= now && Accounted(was)
      requires id in active && FinishReason(active[id], Gone(id, now), now, limits).Some?
      modifies this`active, this`pending, this`ended
      ensures Valid() && Accounted(was) && active == old(active) - {id} && Keeps(old(pending), pending, active.Keys)
    {
      hide Sound, FinishReason, MayEnd;
      ReasonToEnd(active[id], Gone(id, now), now, limits);
      EndsLater(active[id], Gone(id, now), Gone(id, clock), now, clock, limits);
      assert {} - {id} == {};
      FinishLookup(id, {});
    }
  }

  /** The room left on a lookup's frontier. */
  function Room(l: Lookup): nat {
    if |l.frontier| < MAX_FRONTIER then MAX_FRONTIER - |l.frontier| else 0
  }

  /** Of the nodes in order, the first that were not seen, each endpoint once, as many as there is room for. */
  ghost function Newcomers(nodes: seq<Node>, seen: set<Addr>, room: nat): seq<Node> {
    if nodes == [] || room == 0 then []
    else if nodes[0].addr in seen then Newcomers(nodes[1..], seen, room)
    else [nodes[0]] + Newcomers(nodes[1..], seen + {nodes[0].addr}, room - 1)
  }

  lemma NewcomersNext(nodes: seq<Node>, seen: set<Addr>, room: nat)
    requires nodes != [] && room > 0 && nodes[0].addr !in seen
    ensures var rest := Newcomers(nodes[1..], seen + {nodes[0].addr}, room - 1);
      && Newcomers(nodes, seen, room) == [nodes[0]] + rest
      && seen + {nodes[0].addr} + Endpoints(rest) == seen + Endpoints(Newcomers(nodes, seen, room))
  {
    var rest := Newcomers(nodes[1..], seen + {nodes[0].addr}, room - 1);
    assert Endpoints([nodes[0]] + rest) == {nodes[0].addr} + Endpoints(rest);
  }

  /** Newcomers were named and not seen before; and none is missed unless they take all the room. */
  lemma {:induction false} NewcomersAre(nodes: seq<Node>, seen: set<Addr>, room: nat)
    ensures |Newcomers(nodes, seen, room)| <= room
    ensures forall n :: n in Newcomers(nodes, seen, room) ==> n in nodes && n.addr !in seen
    ensures |Newcomers(nodes, seen, room)| < room ==>
      forall n :: n in nodes ==> n.addr in seen + Endpoints(Newcomers(nodes, seen, room))
  {
    if nodes == [] || room == 0 {
    } else if nodes[0].addr in seen {
      NewcomersAre(nodes[1..], seen, room);
    } else {
      NewcomersNext(nodes, seen, room);
      NewcomersAre(nodes[1..], seen + {nodes[0].addr}, room - 1);
    }
  }

  lemma FrontierFits(l: Lookup, asked: seq<Addr>, limits: Limits)
    requires Walks(l, asked, limits)
    ensures |l.frontier| <= MAX_FRONTIER
  {
  }

  /** What a lookup has seen once nodes were named to it: also the first newcomers among them, as many as its frontier
      has room for. What was seen has been asked or waits to be. */
  ghost predicate Met(l: Lookup, m: Lookup, nodes: seq<Node>) {
    m.seen == l.seen + Endpoints(Newcomers(nodes, l.seen, Room(l)))
  }

  /** The same lookup after a reply: it kept its peers and has the reply's, as many as it may hold, and no others. */
  ghost predicate Heard(l: Lookup, m: Lookup, peers: seq<Addr>) {
    && m.hash == l.hash && m.deadline == l.deadline && l.peers <= m.peers && l.seen <= m.seen
    && (forall p :: p in peers ==> p in m.peers || |m.peers| == MAX_PEERS)
    && (forall p :: p in m.peers ==> p in l.peers || p in peers)
  }

  /** `addr` is the first node that supplied the hash, or, if none is left, a frontier node nearest to the hash. */
  ghost predicate BestChoice(l: Lookup, addr: Addr) {
    if l.sources != [] then addr == l.sources[0].addr
    else exists i :: 0 <= i < |l.frontier| && addr == l.frontier[i].addr
                     && forall j :: 0 <= j < |l.frontier| ==> !Nearer(l.hash, l.frontier[j].id, l.frontier[i].id)
  }

  /** The same lookup, further on. */
  predicate Onward(l: Lookup, m: Lookup) {
    m.hash == l.hash && m.deadline == l.deadline && m.peers == l.peers && l.queried <= m.queried && m.seen == l.seen
  }

  /** An endpoint is still to be asked. */
  ghost predicate Waits(l: Lookup, a: Addr) {
    a in Addrs(l.sources) || a in Addrs(l.frontier)
  }

  /** Every endpoint that a lookup has seen was asked or is still to be asked. */
  lemma SeenWaits(d: Desk, loose: set<nat>, clock: Instant, limits: Limits, id: nat)
    requires Sound(d, loose, clock, limits) && id in d.active
    ensures id in d.asked && forall a :: a in d.active[id].seen ==> a in d.asked[id] || Waits(d.active[id], a)
  {
    WalkOf(d, loose, clock, limits, id);
    hide Sound, NoRepeats, Addrs;
  }

  lemma HeardOn(l: Lookup, m: Lookup, n: Lookup, peers: seq<Addr>, nodes: seq<Node>)
    requires Heard(l, m, peers) && Met(l, m, nodes) && Onward(m, n)
    ensures Heard(l, n, peers) && Met(l, n, nodes)
  {
    hide Newcomers;
  }

  lemma PendingKnown(d: Desk, loose: set<nat>, clock: Instant, limits: Limits, key: QueryKey)
    requires Sound(d, loose, clock, limits) && key in d.pending
    ensures d.pending[key].lookup in d.active
  {
    hide Busy, AllWalk, Timed, Numbered;
  }

  lemma NewKeys(d: Desk, loose: set<nat>, clock: Instant, limits: Limits)
    requires Sound(d, loose, clock, limits)
    ensures forall a :: QueryKey(a, d.nextTid) !in d.pending
  {
    hide Counted, Busy, AllWalk, Timed;
  }

  lemma EnterOk(d: Desk, loose: set<nat>, clock: Instant, limits: Limits, id: nat, addr: Addr, deadline: Instant,
                since: Instant)
    requires Sound(d, loose, clock, limits) && id in d.active && d.active[id].outstanding < limits.maxConcurrent
    requires d.nextTid > 0 && QueryKey(addr, d.nextTid - 1) !in d.pending && d.active[id].deadline > since
    requires since <= clock && id in loose
    requires deadline == (if clock + limits.queryTimeout < d.active[id].deadline then clock + limits.queryTimeout
                          else d.active[id].deadline)
    ensures var e := Sent(d, id, QueryKey(addr, d.nextTid - 1), deadline, clock);
      Sound(e, loose, clock, limits) && (HeadAfter(d.expiry, since) ==> HeadAfter(e.expiry, since))
  {
    LimitsWork(d, loose, clock, limits);
    hide Sound;
    SoundSent(d, loose, clock, limits, id, addr, deadline);
  }

  lemma TakenKeeps(l: Lookup, i: nat)
    requires l.sources != [] || i < |l.frontier|
    ensures Taken(l, i).queried == l.queried + 1 && Taken(l, i).outstanding == l.outstanding && Onward(l, Taken(l, i))
  {
  }

  lemma LimitsWork(d: Desk, loose: set<nat>, clock: Instant, limits: Limits)
    requires Sound(d, loose, clock, limits)
    ensures Workable(limits)
  {
    hide Counted, Busy, AllWalk, Numbered, Timed;
  }

  lemma NoneOverdue(d: Desk, loose: set<nat>, clock: Instant, limits: Limits, now: Instant)
    requires Sound(d, loose, clock, limits) && HeadAfter(d.expiry, now)
    requires forall id :: id in d.active ==> d.active[id].deadline > now
    ensures forall k :: k in d.pending ==> d.pending[k].deadline > now
  {
    hide Counted, Busy, AllWalk, Numbered, Timed;
    forall k | k in d.pending ensures d.pending[k].deadline > now {
      if d.pending[k].deadline <= now {
        OverdueOnlyWithLookup(d.active, d.pending, d.expiry, d.sent, clock, limits.queryTimeout, now, k);
      }
    }
  }
}
