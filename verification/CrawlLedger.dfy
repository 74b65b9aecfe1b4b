/** The requests a crawler has in flight: who was asked, until when an answer counts, and how many requests each
    subnet has. */
module CrawlLedgers {
  import opened Common
  import opened Nodes
  import opened ProbeWindows

  datatype PendingKey = PendingKey(addr: Addr, tid: nat)

  datatype Purpose = New | Revisit | Bootstrap

  datatype Request = Request(node: Node, purpose: Purpose, dispatchedAt: Instant, deadline: Instant, subnet: Subnet)

  datatype Deadline = Deadline(at: Instant, key: PendingKey)

  /** The pending requests, their deadlines in order of dispatch, the subnets' counters and the next number. */
  datatype Desk = Desk(pending: map<PendingKey, Request>, expiry: seq<Deadline>, subnets: map<Subnet, nat>,
                       nextTid: nat)

  /** The requests pending for a subnet. */
  ghost function InSubnet(pending: map<PendingKey, Request>, s: Subnet): set<PendingKey> {
    set k | k in pending && pending[k].subnet == s
  }

  function CountOf(subnets: map<Subnet, nat>, s: Subnet): nat {
    if s in subnets then subnets[s] else 0
  }

  function Released(subnets: map<Subnet, nat>, s: Subnet): map<Subnet, nat> {
    if s !in subnets then subnets
    else if subnets[s] <= 1 then subnets - {s}
    else subnets[s := subnets[s] - 1]
  }

  /** Each pending request is filed under its own address, with a number used once, for its own subnet. */
  ghost predicate Filed(pending: map<PendingKey, Request>, nextTid: nat, clock: Instant, timeout: nat) {
    forall k :: k in pending ==>
      && k.tid < nextTid && pending[k].node.addr == k.addr && pending[k].subnet == SubnetOf(k.addr)
      && pending[k].deadline == pending[k].dispatchedAt + timeout && pending[k].dispatchedAt <= clock
  }

  ghost predicate Sorted(expiry: seq<Deadline>) {
    forall i, j :: 0 <= i < j < |expiry| ==> expiry[i].at <= expiry[j].at
  }

  /** The expiry queue is in order of time and lists every pending request with its deadline. */
  ghost predicate Listed(pending: map<PendingKey, Request>, expiry: seq<Deadline>, clock: Instant, timeout: nat) {
    && Sorted(expiry) && (forall i :: 0 <= i < |expiry| ==> expiry[i].at <= clock + timeout)
    && (forall k :: k in pending ==> Deadline(pending[k].deadline, k) in expiry)
  }

  /** Every subnet's counter is its number of pending requests, within the limit; no counter stays at zero. */
  ghost predicate Counted(pending: map<PendingKey, Request>, subnets: map<Subnet, nat>, limit: nat) {
    forall s :: CountOf(subnets, s) == |InSubnet(pending, s)| <= limit && (s in subnets ==> subnets[s] > 0)
  }

  ghost predicate Ledger(d: Desk, clock: Instant, c: Config) {
    && Filed(d.pending, d.nextTid, clock, c.requestTimeout) && Listed(d.pending, d.expiry, clock, c.requestTimeout)
    && Counted(d.pending, d.subnets, c.maxPerSubnet) && |d.pending| <= c.maxInFlight
  }

  lemma LedgerStart(clock: Instant, c: Config)
    ensures Ledger(Desk(map[], [], map[], 1), clock, c)
  {
    assert forall s :: InSubnet(map[], s) == {};
  }

  lemma LedgerAdvance(d: Desk, clock: Instant, now: Instant, c: Config)
    requires Ledger(d, clock, c) && clock <= now
    ensures Ledger(d, now, c)
  {
    hide Counted;
  }

  lemma CountedAdd(pending: map<PendingKey, Request>, subnets: map<Subnet, nat>, limit: nat, k: PendingKey, r: Request)
    requires Counted(pending, subnets, limit) && k !in pending && CountOf(subnets, r.subnet) < limit
    ensures Counted(pending[k := r], subnets[r.subnet := CountOf(subnets, r.subnet) + 1], limit)
  {
    hide InSubnet;
    var after, more := pending[k := r], subnets[r.subnet := CountOf(subnets, r.subnet) + 1];
    forall s ensures CountOf(more, s) == |InSubnet(after, s)| <= limit && (s in more ==> more[s] > 0) {
      assert CountOf(subnets, s) == |InSubnet(pending, s)|;
      InSubnetAdd(pending, k, r, s);
    }
  }

  lemma InSubnetAdd(pending: map<PendingKey, Request>, k: PendingKey, r: Request, s: Subnet)
    requires k !in pending
    ensures |InSubnet(pending[k := r], s)| == |InSubnet(pending, s)| + (if s == r.subnet then 1 else 0)
  {
    if s == r.subnet {
      assert InSubnet(pending[k := r], s) == InSubnet(pending, s) + {k};
    } else {
      assert InSubnet(pending[k := r], s) == InSubnet(pending, s);
    }
  }

  lemma CountedDrop(pending: map<PendingKey, Request>, subnets: map<Subnet, nat>, limit: nat, k: PendingKey)
    requires Counted(pending, subnets, limit) && k in pending
    ensures Counted(pending - {k}, Released(subnets, pending[k].subnet), limit)
  {
    var after, less := pending - {k}, Released(subnets, pending[k].subnet);
    forall s ensures CountOf(less, s) == |InSubnet(after, s)| <= limit && (s in less ==> less[s] > 0) {
      assert CountOf(subnets, s) == |InSubnet(pending, s)|;
      if s == pending[k].subnet {
        assert InSubnet(after, s) == InSubnet(pending, s) - {k};
      } else {
        assert InSubnet(after, s) == InSubnet(pending, s);
      }
    }
  }

  lemma ListedAdd(pending: map<PendingKey, Request>, expiry: seq<Deadline>, clock: Instant, timeout: nat, k: PendingKey,
                  r: Request)
    requires Listed(pending, expiry, clock, timeout) && k !in pending && r.deadline == clock + timeout
    ensures Listed(pending[k := r], expiry + [Deadline(r.deadline, k)], clock, timeout)
  {
    var after := expiry + [Deadline(r.deadline, k)];
    assert after[|expiry|] == Deadline(r.deadline, k);
    forall j | j in pending ensures Deadline(pending[j].deadline, j) in after {
      assert Deadline(pending[j].deadline, j) in expiry;
    }
  }

  lemma ListedPop(pending: map<PendingKey, Request>, expiry: seq<Deadline>, clock: Instant, timeout: nat)
    requires Listed(pending, expiry, clock, timeout) && expiry != []
    requires expiry[0].key in pending ==> pending[expiry[0].key].deadline != expiry[0].at
    ensures Listed(pending, expiry[1..], clock, timeout)
  {
    forall k | k in pending ensures Deadline(pending[k].deadline, k) in expiry[1..] {
      var i :| 0 <= i < |expiry| && expiry[i] == Deadline(pending[k].deadline, k);
      assert expiry[1..][i - 1] == Deadline(pending[k].deadline, k);
    }
  }

  lemma OneMore(pending: map<PendingKey, Request>, k: PendingKey, r: Request)
    requires k !in pending
    ensures |pending[k := r]| == |pending| + 1
  {
    assert pending[k := r].Keys == pending.Keys + {k};
  }

  lemma OneLess(pending: map<PendingKey, Request>, k: PendingKey)
    requires k in pending
    ensures |pending - {k}| == |pending| - 1
  {
    assert (pending - {k}).Keys == pending.Keys - {k};
  }

  /** There is room for one more request to a node, in all and in its subnet. */
  predicate HasRoom(d: Desk, node: Node, c: Config) {
    |d.pending| < c.maxInFlight && CountOf(d.subnets, SubnetOf(node.addr)) < c.maxPerSubnet
  }

  function Sent(d: Desk, node: Node, purpose: Purpose, now: Instant, c: Config): Desk {
    var key, subnet, deadline := PendingKey(node.addr, d.nextTid), SubnetOf(node.addr), now + c.requestTimeout;
    Desk(d.pending[key := Request(node, purpose, now, deadline, subnet)], d.expiry + [Deadline(deadline, key)],
         d.subnets[subnet := CountOf(d.subnets, subnet) + 1], d.nextTid + 1)
  }

  function Closed(d: Desk, k: PendingKey): Desk
    requires k in d.pending
  {
    d.(pending := d.pending - {k}, subnets := Released(d.subnets, d.pending[k].subnet))
  }

  /** A dispatch within the limits keeps the books. */
  lemma FiledAdd(pending: map<PendingKey, Request>, nextTid: nat, now: Instant, timeout: nat, node: Node,
                 purpose: Purpose)
    requires Filed(pending, nextTid, now, timeout)
    ensures var k := PendingKey(node.addr, nextTid);
      var q := Request(node, purpose, now, now + timeout, SubnetOf(node.addr));
      k !in pending && Filed(pending[k := q], nextTid + 1, now, timeout)
  {
  }

  lemma LedgerSent(d: Desk, node: Node, purpose: Purpose, now: Instant, c: Config)
    requires Ledger(d, now, c) && HasRoom(d, node, c)
    ensures Ledger(Sent(d, node, purpose, now, c), now, c)
    ensures |Sent(d, node, purpose, now, c).pending| == |d.pending| + 1
    ensures PendingAddrs(Sent(d, node, purpose, now, c).pending) == PendingAddrs(d.pending) + {node.addr}
  {
    hide Counted, Listed, PendingAddrs, Filed, CountOf;
    var k := PendingKey(node.addr, d.nextTid);
    FiledAdd(d.pending, d.nextTid, now, c.requestTimeout, node, purpose);
    var q := Request(node, purpose, now, now + c.requestTimeout, SubnetOf(node.addr));
    OneMore(d.pending, k, q);
    CountedAdd(d.pending, d.subnets, c.maxPerSubnet, k, q);
    ListedAdd(d.pending, d.expiry, now, c.requestTimeout, k, q);
    PendingAddrsAdd(d.pending, k, q);
  }

  /** So does the end of a request. */
  lemma LedgerClosed(d: Desk, k: PendingKey, clock: Instant, c: Config)
    requires Ledger(d, clock, c) && k in d.pending
    ensures Ledger(Closed(d, k), clock, c) && |Closed(d, k).pending| == |d.pending| - 1
    ensures d.pending[k].node.addr == k.addr && d.pending[k].dispatchedAt <= clock
    ensures PendingAddrs(Closed(d, k).pending) <= PendingAddrs(d.pending) && k.addr in PendingAddrs(d.pending)
  {
    hide Counted, Sorted;
    OneLess(d.pending, k);
    CountedDrop(d.pending, d.subnets, c.maxPerSubnet, k);
  }

  /** The head of the expiry queue may go once its request is gone. */
  lemma LedgerPop(d: Desk, clock: Instant, c: Config)
    requires Ledger(d, clock, c) && d.expiry != []
    requires d.expiry[0].key in d.pending ==> d.pending[d.expiry[0].key].deadline != d.expiry[0].at
    ensures Ledger(d.(expiry := d.expiry[1..]), clock, c)
  {
    hide Counted, Listed, Filed;
    ListedPop(d.pending, d.expiry, clock, c.requestTimeout);
  }

  /** Once the head of the expiry queue is not due, nothing pending is overdue. */
  lemma NoneOverdue(d: Desk, clock: Instant, c: Config, now: Instant)
    requires Ledger(d, clock, c) && (d.expiry != [] ==> d.expiry[0].at > now)
    ensures forall k :: k in d.pending ==> d.pending[k].deadline > now
  {
    hide Counted, Filed;
    forall k | k in d.pending ensures d.pending[k].deadline > now {
      var i :| 0 <= i < |d.expiry| && d.expiry[i] == Deadline(d.pending[k].deadline, k);
      assert i > 0 ==> d.expiry[0].at <= d.expiry[i].at;
    }
  }

  /** The addresses with a request pending. */
  ghost function PendingAddrs(pending: map<PendingKey, Request>): set<Addr> {
    set k | k in pending :: k.addr
  }

  lemma {:induction false} PendingAddrsSize(pending: map<PendingKey, Request>)
    ensures |PendingAddrs(pending)| <= |pending|
    decreases |pending|
  {
    if pending != map[] {
      var k :| k in pending;
      OneLess(pending, k);
      PendingAddrsSize(pending - {k});
      SubsetSize(PendingAddrs(pending), PendingAddrs(pending - {k}) + {k.addr});
    }
  }

  lemma PendingAddrsAdd(pending: map<PendingKey, Request>, k: PendingKey, r: Request)
    ensures PendingAddrs(pending[k := r]) == PendingAddrs(pending) + {k.addr}
  {
    assert forall j :: j in pending ==> j in pending[k := r];
    assert k in pending[k := r];
  }
}
