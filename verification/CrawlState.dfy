/** The crawl actor's state as a value, what holds of it, and what each of the actor's moves does to it. */
module CrawlStates {
  import opened Nodes
  import opened Budgets
  import opened RecentProbing
  import opened ProbeWindows
  import opened ProbeFunds
  import opened CrawlLedgers

  /** Requests in flight, tokens, the endpoints that count as recent, the reservoir's endpoints and the slot that
      is out of its schedules, the time, the counts of queries sent and ended, the endpoints forgotten while
      recent, and the bootstrap work at hand. */
  datatype Snapshot = Snapshot(desk: Desk, purse: Purse, live: map<Addr, Instant>, index: map<Addr, nat>,
                               reserved: Option<nat>, clock: Instant, queries: nat, ended: nat, evicted: seq<Addr>,
                               bootstrap: seq<Addr>, resolving: nat)

  /** Only `addr` may be out of the reservoir's schedules. */
  predicate ReservedFor(v: Snapshot, addr: Addr) {
    v.reserved.Some? ==> addr in v.index && v.index[addr] == v.reserved.value
  }

  /** The endpoints that may answer or be revisited. */
  ghost function Known(v: Snapshot): set<Addr> {
    v.index.Keys + PendingAddrs(v.desk.pending)
  }

  /** Every query sent has ended or is pending. */
  ghost predicate Conserved(v: Snapshot) {
    v.queries == v.ended + |v.desk.pending|
  }

  ghost predicate Good(v: Snapshot, c: Config) {
    && Resolved(c) && Ledger(v.desk, v.clock, c) && Funded(v.live, Known(v), v.purse, v.clock, c)
    && Conserved(v) && v.evicted == [] && (!BootstrapEnabled(c) ==> v.bootstrap == [] && v.resolving == 0)
  }

  ghost function StartView(c: Config, now: Instant): Snapshot {
    Snapshot(Desk(map[], [], map[], 1), StartPurse(c, now), map[], map[], None, now, 0, 0, [], [], 0)
  }

  lemma GoodStart(c: Config, now: Instant)
    requires Resolved(c)
    ensures Good(StartView(c, now), c)
  {
    LedgerStart(now, c);
    FundedStart(c, now);
    assert PendingAddrs(map[]) == {};
  }

  lemma GoodElapse(v: Snapshot, now: Instant, c: Config)
    requires Good(v, c) && v.clock <= now && v.purse.held == v.purse.destHeld == 0 && |v.index| <= c.responsiveCapacity
    ensures Good(v.(clock := now, live := Live(v.live, now)), c)
  {
    PendingAddrsSize(v.desk.pending);
    UnionSize(v.index.Keys, PendingAddrs(v.desk.pending), Known(v));
    assert |v.desk.pending| <= c.maxInFlight;
    hide Ledger, Funded, PendingAddrs, Live;
    LedgerAdvance(v.desk, v.clock, now, c);
    FundedAdvance(v.live, Live(v.live, now), Known(v), v.purse, v.clock, now, c);
  }

  /** Forgetting endpoints keeps the state good. */
  lemma GoodFewer(v: Snapshot, index: map<Addr, nat>, reserved: Option<nat>, live: map<Addr, Instant>, c: Config)
    requires Good(v, c) && index.Keys <= v.index.Keys && (forall a :: a in live ==> a in v.live && live[a] == v.live[a])
    ensures Good(v.(index := index, reserved := reserved, live := live), c)
  {
    hide Ledger, Funded, PendingAddrs;
    FundedFewer(v.live, live, Known(v), Known(v.(index := index)), v.purse, v.clock, c);
  }

  // ---------- tokens ----------

  function Rated(v: Snapshot, rate: nat): Snapshot
    requires v.purse.query.Valid()
  {
    v.(purse := v.purse.(query := SetRate(v.purse.query, rate, v.clock)))
  }

  function Taking(v: Snapshot, max: nat): Snapshot
    requires v.purse.query.Valid()
  {
    var (after, taken) := TakeUpTo(v.purse.query, max, v.clock);
    v.(purse := v.purse.(query := after, held := v.purse.held + taken))
  }

  function Returning(v: Snapshot, count: nat): Snapshot
    requires v.purse.query.Valid() && count <= v.purse.held
  {
    v.(purse := v.purse.(query := Refund(v.purse.query, count), held := v.purse.held - count))
  }

  /** Asking for a destination token. */
  function Paying(v: Snapshot): (r: (Snapshot, bool))
    requires v.purse.destination.Valid()
  {
    var (after, ok) := TakeExact(v.purse.destination, 1, v.clock);
    (v.(purse := v.purse.(destination := after, destHeld := v.purse.destHeld + (if ok then 1 else 0))), ok)
  }

  function Unpaying(v: Snapshot): Snapshot
    requires v.purse.destination.Valid() && v.purse.destHeld > 0
  {
    v.(purse := v.purse.(destination := Refund(v.purse.destination, 1), destHeld := v.purse.destHeld - 1))
  }

  /** A destination token was asked for: one is in hand afterwards if and only if the bucket had it. */
  ghost predicate Pays(v: Snapshot, w: Snapshot, ok: bool) {
    v.purse.destination.Valid() && (w, ok) == Paying(v)
  }

  /** A destination token in hand went back into the bucket, and none was lost to its capacity. */
  ghost predicate Unpays(v: Snapshot, w: Snapshot) {
    && v.purse.destination.Valid() && v.purse.destHeld > 0 && w == Unpaying(v)
    && Level(w.purse.destination, v.clock) == Level(v.purse.destination, v.clock) + 1.0
  }

  /** The reservoir offered a node, dropping expired ones; it is out of the schedules until it is put back. */
  ghost predicate Picks(v: Snapshot, w: Snapshot, node: Option<Node>) {
    && w == v.(index := w.index, reserved := w.reserved) && w.index.Keys <= v.index.Keys
    && (node.None? ==> w.reserved == None)
    && (node.Some? ==> node.value.addr in w.index && ReservedFor(w, node.value.addr))
  }

  lemma BucketsValid(v: Snapshot, c: Config)
    requires Good(v, c)
    ensures v.purse.query.Valid() && v.purse.destination.Valid()
  {
    hide Ledger, DestinationBurst, DestinationRate;
  }

  lemma GoodRate(v: Snapshot, rate: nat, c: Config)
    requires Good(v, c) && rate <= c.maxRate
    ensures v.purse.query.Valid() && Good(Rated(v, rate), c)
  {
    hide Ledger, Funded, PendingAddrs, SetRate;
    BucketsValid(v, c);
    FundedRate(v.live, Known(v), v.purse, v.clock, c, rate);
  }

  lemma GoodTake(v: Snapshot, max: nat, c: Config)
    requires Good(v, c)
    ensures v.purse.query.Valid() && Good(Taking(v, max), c)
    ensures Level(Taking(v, max).purse.query, v.clock) + Taking(v, max).purse.held as real
         == Level(v.purse.query, v.clock) + v.purse.held as real
  {
    hide Ledger, Funded, PendingAddrs, TakeUpTo, Level;
    BucketsValid(v, c);
    FundedTake(v.live, Known(v), v.purse, v.clock, c, max);
  }

  lemma GoodReturn(v: Snapshot, count: nat, c: Config)
    requires Good(v, c) && count <= v.purse.held
    ensures v.purse.query.Valid() && Good(Returning(v, count), c)
    ensures Level(Returning(v, count).purse.query, v.clock) == Level(v.purse.query, v.clock) + count as real
  {
    hide Ledger, Funded, PendingAddrs, Refund, Level;
    BucketsValid(v, c);
    FundedRefund(v.live, Known(v), v.purse, v.clock, c, count);
  }

  lemma GoodPay(v: Snapshot, c: Config)
    requires Good(v, c)
    ensures v.purse.destination.Valid() && Good(Paying(v).0, c)
  {
    hide Ledger, Funded, PendingAddrs, TakeExact;
    BucketsValid(v, c);
    FundedPay(v.live, Known(v), v.purse, v.clock, c);
  }

  lemma GoodUnpay(v: Snapshot, c: Config)
    requires Good(v, c) && v.purse.destHeld > 0
    ensures v.purse.destination.Valid() && Good(Unpaying(v), c)
    ensures Level(Unpaying(v).purse.destination, v.clock) == Level(v.purse.destination, v.clock) + 1.0
  {
    hide Ledger, Funded, PendingAddrs, Refund, Level;
    BucketsValid(v, c);
    FundedUnpay(v.live, Known(v), v.purse, v.clock, c);
  }

  // ---------- probes and their ends ----------

  /** What a probe needs: tokens in hand, or an endpoint that is recent and may be probed for free. */
  ghost predicate MayProbe(v: Snapshot, node: Node, pays: bool, c: Config) {
    && v.purse.held > 0 && (pays ==> v.purse.destHeld > 0)
    && (pays || (node.addr in v.live && (node.addr in Known(v) || BootstrapEnabled(c))))
  }

  function Probing(v: Snapshot, node: Node, purpose: Purpose, pays: bool, c: Config): Snapshot {
    v.(desk := Sent(v.desk, node, purpose, v.clock, c), purse := Spent(v.purse, node.addr, pays, v.clock),
       live := v.live[node.addr := v.clock + Ttl(c)], reserved := None, queries := v.queries + 1)
  }

  /** A probe that may be made keeps the state good, and displaces no recent endpoint. */
  lemma GoodProbe(v: Snapshot, node: Node, purpose: Purpose, pays: bool, c: Config)
    requires Good(v, c) && MayProbe(v, node, pays, c) && HasRoom(v.desk, node, c)
    ensures Good(Probing(v, node, purpose, pays, c), c)
    ensures node.addr in v.live || |v.live| < RecentProbeCapacity(c)
    ensures v.purse.held > 0 && (pays ==> v.purse.destHeld > 0)
  {
    hide Ledger, Funded, PendingAddrs, Sent, Spent, HasRoom, Ttl, RecentProbeCapacity;
    NoneDisplaced(v, node, pays, c);
    LedgerSent(v.desk, node, purpose, v.clock, c);
    FundedProbe(v.live, Known(v), v.purse, v.clock, c, node.addr, pays);
    assert Known(Probing(v, node, purpose, pays, c)) == Known(v) + {node.addr};
  }

  /** No recent endpoint is displaced by a probe that may be made. */
  lemma NoneDisplaced(v: Snapshot, node: Node, pays: bool, c: Config)
    requires Good(v, c) && MayProbe(v, node, pays, c)
    ensures node.addr in v.live || |v.live| < RecentProbeCapacity(c)
  {
    hide Ledger, Funded, PendingAddrs;
    if pays { RoomForProbe(v.live, Known(v), v.purse, v.clock, c); }
  }

  /** A request ends; its endpoint may be entered into the reservoir, at the cost of another. */
  lemma GoodEnd(v: Snapshot, k: PendingKey, index: map<Addr, nat>, c: Config)
    requires Good(v, c) && k in v.desk.pending && index.Keys <= v.index.Keys + {k.addr}
    ensures Good(v.(desk := Closed(v.desk, k), index := index, ended := v.ended + 1), c)
    ensures v.desk.pending[k].node.addr == k.addr && v.desk.pending[k].dispatchedAt <= v.clock
  {
    hide Ledger, Funded, PendingAddrs, Closed;
    LedgerClosed(v.desk, k, v.clock, c);
    var w := v.(desk := Closed(v.desk, k), index := index, ended := v.ended + 1);
    FundedFewer(v.live, v.live, Known(v), Known(w), v.purse, v.clock, c);
  }

  /** A request ended in failure. */
  ghost predicate Fails(v: Snapshot, w: Snapshot, k: PendingKey) {
    k in v.desk.pending && w == v.(desk := Closed(v.desk, k), ended := v.ended + 1)
  }

  /** A request was answered: its endpoint is in the reservoir, perhaps in the place of another. */
  ghost predicate Answers(v: Snapshot, w: Snapshot, k: PendingKey) {
    && k in v.desk.pending && w == v.(desk := Closed(v.desk, k), ended := v.ended + 1, index := w.index)
    && w.index.Keys <= v.index.Keys + {k.addr} && k.addr in w.index
  }

  lemma GoodPop(v: Snapshot, c: Config)
    requires Good(v, c) && v.desk.expiry != []
    requires v.desk.expiry[0].key in v.desk.pending ==>
      v.desk.pending[v.desk.expiry[0].key].deadline != v.desk.expiry[0].at
    ensures Good(v.(desk := v.desk.(expiry := v.desk.expiry[1..])), c)
  {
    hide Ledger, Funded, PendingAddrs;
    LedgerPop(v.desk, v.clock, c);
  }

  lemma GoodOverdue(v: Snapshot, c: Config, now: Instant)
    requires Good(v, c) && (v.desk.expiry != [] ==> v.desk.expiry[0].at > now)
    ensures forall k :: k in v.desk.pending ==> v.desk.pending[k].deadline > now
  {
    hide Ledger, Funded, PendingAddrs;
    NoneOverdue(v.desk, v.clock, c, now);
  }

  lemma GoodBootstrap(v: Snapshot, addrs: seq<Addr>, resolving: nat, c: Config)
    requires Good(v, c) && (BootstrapEnabled(c) || (addrs == [] && resolving == 0))
    ensures Good(v.(bootstrap := addrs, resolving := resolving), c)
  {
    hide Ledger, Funded, PendingAddrs;
  }

  // ---------- one scheduling attempt ----------

  /** An attempt to send one query: whom it went to, if anyone, and why; whether that cost a destination token; the
      pool's next node, if it was taken, refused and put back; and the node that the reservoir offered for a revisit. */
  datatype Attempt = Attempt(target: Option<Node>, purpose: Purpose, pays: bool, refused: Option<Node>,
                             offered: Option<Node>)

  function EndpointOf(node: Option<Node>): set<Addr> {
    if node.Some? then {node.value.addr} else {}
  }

  /** There is a destination token to be had. */
  ghost predicate CanPay(v: Snapshot) {
    v.purse.destination.rate > 0.0 && 1.0 <= Level(v.purse.destination, v.clock)
  }

  /** The destination bucket holds as many tokens less, whatever was taken and given back in between. */
  ghost predicate Costs(v: Snapshot, w: Snapshot, tokens: nat) {
    && Level(w.purse.destination, v.clock) == Level(v.purse.destination, v.clock) - tokens as real
    && w.purse.destination.rate == v.purse.destination.rate
  }

  /** What an attempt to send one query leaves alone. */
  ghost predicate Apart(v: Snapshot, w: Snapshot) {
    && w.clock == v.clock && w.reserved == None && w.ended == v.ended && w.resolving == v.resolving
    && w.purse.query == v.purse.query && w.purse.destHeld == v.purse.destHeld
  }

  function Token(pays: bool): nat {
    if pays then 1 else 0
  }

  /** An attempt to send one query sent one, to `node`, for one query token in hand and, if it had to be paid for, one
      destination token. The endpoints in `gone` lost their marks, and then `node` was marked. A query for bootstrap
      uses up the first bootstrap address. */
  ghost predicate Queried(v: Snapshot, w: Snapshot, node: Node, purpose: Purpose, pays: bool, gone: set<Addr>,
                          c: Config) {
    && Apart(v, w) && v.purse.held > 0 && w.purse.held == v.purse.held - 1 && w.queries == v.queries + 1
    && HasRoom(v.desk, node, c) && w.desk == Sent(v.desk, node, purpose, v.clock, c)
    && w.purse.probed == v.purse.probed[node.addr := v.clock]
    && w.live == (v.live - gone)[node.addr := v.clock + Ttl(c)] && Costs(v, w, Token(pays))
    && (if purpose == Bootstrap then v.bootstrap != [] && w.bootstrap == v.bootstrap[1..]
        else w.bootstrap == v.bootstrap)
  }

  /** It sent none: nothing in flight changed and no token was spent. The endpoints in `gone` lost their marks. */
  ghost predicate Refused(v: Snapshot, w: Snapshot, gone: set<Addr>) {
    && Apart(v, w) && w.purse.held == v.purse.held && w.queries == v.queries && w.desk == v.desk
    && w.purse.probed == v.purse.probed && w.bootstrap == v.bootstrap
    && w.live == v.live - gone && Costs(v, w, 0)
  }

  /** A node was chosen at the cost of a destination token if it had to be paid for; the endpoints in `gone` lost their
      marks on the way. */
  ghost predicate Chosen(v: Snapshot, w: Snapshot, pays: bool, gone: set<Addr>) {
    && w == v.(index := w.index, reserved := w.reserved, live := v.live - gone,
               purse := v.purse.(destination := w.purse.destination, destHeld := w.purse.destHeld))
    && w.purse.destHeld == v.purse.destHeld + Token(pays) && Costs(v, w, Token(pays))
  }

  /** What an attempt did. A query to the pool's head is always paid for; any other is unless its endpoint is recent. */
  ghost predicate Attempted(v: Snapshot, w: Snapshot, e: Attempt, c: Config) {
    if e.target.Some? then
      && Queried(v, w, e.target.value, e.purpose, e.pays, EndpointOf(e.refused), c)
      && (e.pays <==> e.purpose == New || e.target.value.addr !in v.live - EndpointOf(e.refused))
    else Refused(v, w, EndpointOf(e.refused)) && !e.pays
  }

  lemma AttemptedQuery(v: Snapshot, w: Snapshot, e: Attempt, c: Config)
    requires e.target.Some? && Queried(v, w, e.target.value, e.purpose, e.pays, EndpointOf(e.refused), c)
    requires e.pays <==> e.purpose == New || e.target.value.addr !in v.live - EndpointOf(e.refused)
    ensures Attempted(v, w, e, c)
  {
  }

  lemma AttemptedNone(v: Snapshot, w: Snapshot, e: Attempt, c: Config)
    requires e.target.None? && Refused(v, w, EndpointOf(e.refused)) && !e.pays
    ensures Attempted(v, w, e, c)
  {
  }

  lemma PickedFree(v: Snapshot, w: Snapshot, node: Option<Node>)
    requires Picks(v, w, node)
    ensures Chosen(v, w, false, {}) && (node.None? ==> Refused(v, w, {})) && w.purse == v.purse && w.live == v.live
    ensures node.Some? ==> node.value.addr in w.index && ReservedFor(w, node.value.addr)
  {
    hide Level;
    assert v.live - {} == v.live;
  }

  lemma PaidFor(v: Snapshot, w: Snapshot, x: Snapshot, ok: bool, gone: set<Addr>)
    requires Chosen(v, w, false, gone) && Pays(w, x, ok)
    ensures Chosen(v, x, ok, gone)
    ensures x.index == w.index && x.reserved == w.reserved && x.live == w.live && x.desk == w.desk
    ensures x.purse.held == w.purse.held && x.purse.destHeld >= Token(ok) && x.clock == v.clock
    ensures ok <==> CanPay(v)
  {
    hide TakeExact, Level;
    TakeExactLevel(w.purse.destination, 1, w.clock);
  }

  lemma Unpaid(v: Snapshot, w: Snapshot, x: Snapshot, gone: set<Addr>)
    requires Chosen(v, w, true, gone) && Unpays(w, x)
    ensures Chosen(v, x, false, gone) && x.reserved == w.reserved && x.index == w.index && x.live == w.live
  {
    hide Level;
  }

  /** A node of the reservoir may be probed when it is recent or has been paid for. */
  lemma MayRevisit(w: Snapshot, node: Node, pays: bool, c: Config)
    requires w.purse.held > 0 && node.addr in w.index && (if pays then w.purse.destHeld > 0 else node.addr in w.live)
    ensures MayProbe(w, node, pays, c)
  {
  }

  lemma ChosenQueried(v: Snapshot, w: Snapshot, node: Node, purpose: Purpose, pays: bool, gone: set<Addr>, c: Config)
    requires Chosen(v, w, pays, gone) && w.purse.held > 0 && HasRoom(w.desk, node, c) && purpose != Bootstrap
    ensures Queried(v, Probing(w, node, purpose, pays, c), node, purpose, pays, gone, c)
  {
    hide HasRoom, Sent, Ttl, Level;
  }

  lemma ProbingKeeps(v: Snapshot, node: Node, purpose: Purpose, pays: bool, c: Config)
    ensures var w := Probing(v, node, purpose, pays, c);
      w.bootstrap == v.bootstrap && w.resolving == v.resolving && w.clock == v.clock
  {
    hide Sent, Spent, Ttl;
  }

  lemma ChosenBootstrap(v: Snapshot, w: Snapshot, x: Snapshot, node: Node, pays: bool, c: Config)
    requires Chosen(v, w, pays, {}) && w.purse.held > 0 && HasRoom(w.desk, node, c) && w.bootstrap != []
    requires x == Probing(w, node, Bootstrap, pays, c)
    ensures Queried(v, x.(bootstrap := w.bootstrap[1..]), node, Bootstrap, pays, {}, c)
  {
    hide HasRoom, Sent, Ttl, Level;
  }

  lemma ChosenLive(v: Snapshot, w: Snapshot, pays: bool, gone: set<Addr>)
    requires Chosen(v, w, pays, gone)
    ensures w.live == v.live - gone && w.desk == v.desk && w.clock == v.clock
  {
    hide Level;
  }

  /** An attempt that goes on from where another node was put back is one attempt. */
  lemma QueriedAfter(v: Snapshot, w: Snapshot, x: Snapshot, node: Node, purpose: Purpose, pays: bool, gone: set<Addr>,
                     c: Config)
    requires Chosen(v, w, false, gone) && Queried(w, x, node, purpose, pays, {}, c)
    ensures Queried(v, x, node, purpose, pays, gone, c)
  {
    hide HasRoom, Sent, Level, Ttl;
    assert w.live - {} == w.live;
  }

  lemma RefusedAfter(v: Snapshot, w: Snapshot, x: Snapshot, gone: set<Addr>)
    requires Chosen(v, w, false, gone) && Refused(w, x, {})
    ensures Refused(v, x, gone)
  {
    hide Level;
    assert w.live - {} == w.live;
  }

  lemma ChosenSelf(v: Snapshot)
    ensures Chosen(v, v, false, {})
  {
    hide Level;
    assert v.live - {} == v.live;
  }

  lemma ChosenLess(v: Snapshot, w: Snapshot, x: Snapshot, a: Addr)
    requires Chosen(v, w, true, {}) && x == w.(live := w.live - {a})
    ensures Chosen(v, x, true, {a})
  {
    hide Level;
    assert v.live - {} - {a} == v.live - {a};
  }

  lemma BootstrapAllowed(v: Snapshot, c: Config)
    requires Good(v, c) && v.bootstrap != []
    ensures BootstrapEnabled(c)
  {
  }

  lemma ResolvingAllowed(v: Snapshot, c: Config)
    requires Good(v, c) && v.resolving > 0
    ensures BootstrapEnabled(c)
  {
  }

  lemma ChosenKept(v: Snapshot, w: Snapshot, pays: bool, gone: set<Addr>)
    requires Chosen(v, w, pays, gone)
    ensures w.desk == v.desk && w.purse.held == v.purse.held && w.bootstrap == v.bootstrap
  {
    hide Level;
  }

  lemma ChosenKeeps(v: Snapshot, w: Snapshot, gone: set<Addr>)
    requires Chosen(v, w, false, gone)
    ensures w.purse.held == v.purse.held && w.clock == v.clock && w.bootstrap == v.bootstrap && w.desk == v.desk
    ensures w.purse.query == v.purse.query && w.purse.destHeld == v.purse.destHeld && w.queries == v.queries
  {
    hide Level;
  }

  lemma ChosenTrans(v: Snapshot, w: Snapshot, x: Snapshot, gone: set<Addr>)
    requires Chosen(v, w, false, {}) && Chosen(w, x, false, gone)
    ensures Chosen(v, x, false, gone)
  {
    hide Level;
    assert v.live - {} - gone == v.live - gone;
  }

  lemma ChosenRefused(v: Snapshot, w: Snapshot, gone: set<Addr>)
    requires Chosen(v, w, false, gone)
    ensures Refused(v, w.(reserved := None), gone)
  {
    hide Level;
  }

  // ---------- marks ----------

  /** The marks after an attempt: the head that was put back loses its own, and then the node queried gets one. */
  ghost function Marked(live: map<Addr, Instant>, e: Attempt, until: Instant): map<Addr, Instant> {
    var left := live - EndpointOf(e.refused);
    if e.target.Some? then left[e.target.value.addr := until] else left
  }

  /** The marks after several attempts. */
  ghost function MarkedAll(live: map<Addr, Instant>, attempts: seq<Attempt>, until: Instant): map<Addr, Instant> {
    if attempts == [] then live
    else Marked(MarkedAll(live, attempts[..|attempts| - 1], until), attempts[|attempts| - 1], until)
  }

  /** An endpoint that is marked after the attempts and was not before was queried by one of them, and its mark runs
      from then. */
  lemma {:induction false} MarkedSince(live: map<Addr, Instant>, attempts: seq<Attempt>, until: Instant, a: Addr)
    requires a !in live
    ensures a in MarkedAll(live, attempts, until) ==>
      && MarkedAll(live, attempts, until)[a] == until
      && exists i :: 0 <= i < |attempts| && a in EndpointOf(attempts[i].target)
  {
    if attempts == [] {
    } else {
      var n := |attempts| - 1;
      MarkedSince(live, attempts[..n], until, a);
      if a in EndpointOf(attempts[n].target) {
        assert 0 <= n < |attempts|;
      } else if i :| 0 <= i < n && a in EndpointOf(attempts[..n][i].target) {
        assert a in EndpointOf(attempts[i].target);
      }
    }
  }

  // ---------- a tick ----------

  /** The queries that were sent, and the destination tokens that they cost. */
  ghost function QueriesIn(attempts: seq<Attempt>): nat {
    if attempts == [] then 0
    else QueriesIn(attempts[..|attempts| - 1]) + (if attempts[|attempts| - 1].target.Some? then 1 else 0)
  }

  lemma NoQueries()
    ensures QueriesIn([]) == 0
  {
  }

  ghost function TokensIn(attempts: seq<Attempt>): nat {
    if attempts == [] then 0 else TokensIn(attempts[..|attempts| - 1]) + Token(attempts[|attempts| - 1].pays)
  }

  /** Attempts were made, one query token for each query sent; nothing else happened to the query tokens, and no slot or
      destination token is left over. */
  ghost predicate Sends(v: Snapshot, w: Snapshot, attempts: seq<Attempt>, c: Config) {
    && w.clock == v.clock && w.reserved == v.reserved == None && w.ended == v.ended && w.purse.query == v.purse.query
    && w.resolving == v.resolving
    && w.purse.destHeld == v.purse.destHeld && w.purse.held + QueriesIn(attempts) == v.purse.held
    && w.queries == v.queries + QueriesIn(attempts)
    && w.live == MarkedAll(v.live, attempts, v.clock + Ttl(c)) && Costs(v, w, TokensIn(attempts))
  }

  /** No request is overdue. */
  ghost predicate Current(d: Desk, now: Instant) {
    forall k :: k in d.pending ==> d.pending[k].deadline > now
  }

  lemma AttemptedCurrent(v: Snapshot, w: Snapshot, e: Attempt, c: Config)
    requires Attempted(v, w, e, c) && Current(v.desk, v.clock) && Resolved(c)
    ensures Current(w.desk, v.clock)
  {
    hide HasRoom, Level, Ttl;
  }

  /** The rate was set and tokens were drawn. */
  ghost predicate Draws(v: Snapshot, w: Snapshot, rate: nat, max: nat) {
    v.purse.query.Valid() && Rated(v, rate).purse.query.Valid() && w == Taking(Rated(v, rate), max)
  }

  lemma DrawsKeeps(v: Snapshot, w: Snapshot, rate: nat, max: nat)
    requires Draws(v, w, rate, max)
    ensures w.queries == v.queries && w.desk == v.desk && w.reserved == v.reserved && w.clock == v.clock
    ensures w.ended == v.ended && w.resolving == v.resolving
    ensures w.purse.destHeld == v.purse.destHeld && w.purse.destination == v.purse.destination && w.live == v.live
  {
    hide SetRate, TakeUpTo;
  }

  lemma LedgerKept(v: Snapshot, c: Config)
    requires Good(v, c)
    ensures Ledger(v.desk, v.clock, c)
  {
    hide Ledger, Funded, Known;
  }

  lemma IsResolved(v: Snapshot, c: Config)
    requires Good(v, c)
    ensures Resolved(c)
  {
    hide Ledger, Funded, Known;
  }

  lemma RateKnown(v: Snapshot, c: Config, pressure: real)
    requires Good(v, c)
    ensures 0 <= RateForPressure(c, pressure) <= c.maxRate
  {
    hide Ledger, Funded, Known;
    RateWithin(c, pressure);
  }

  lemma GoodDraw(v: Snapshot, rate: nat, max: nat, c: Config)
    requires Good(v, c) && rate <= c.maxRate
    ensures v.purse.query.Valid() && Rated(v, rate).purse.query.Valid() && Good(Taking(Rated(v, rate), max), c)
  {
    hide Ledger, Funded, PendingAddrs, Level, SetRate, TakeUpTo;
    GoodRate(v, rate, c);
    GoodTake(Rated(v, rate), max, c);
  }

  lemma SendsNone(v: Snapshot, c: Config)
    requires v.reserved == None
    ensures Sends(v, v, [], c)
  {
    hide Level, Ttl;
  }

  lemma AttemptedKeeps(v: Snapshot, w: Snapshot, e: Attempt, c: Config)
    requires Attempted(v, w, e, c)
    ensures w.clock == v.clock && w.reserved == None
  {
    hide HasRoom, Sent, Level, Ttl;
  }

  lemma SendsKeeps(v: Snapshot, w: Snapshot, attempts: seq<Attempt>, c: Config)
    requires Sends(v, w, attempts, c)
    ensures w.clock == v.clock && w.reserved == None && w.queries == v.queries + QueriesIn(attempts)
    ensures w.purse.held + QueriesIn(attempts) == v.purse.held && w.purse.destHeld == v.purse.destHeld
    ensures w.resolving == v.resolving
  {
    hide Level, Ttl;
  }

  lemma SendsOne(v: Snapshot, w: Snapshot, x: Snapshot, attempts: seq<Attempt>, e: Attempt, c: Config)
    requires Sends(v, w, attempts, c) && Attempted(w, x, e, c)
    ensures Sends(v, x, attempts + [e], c)
  {
    assert (attempts + [e])[..|attempts|] == attempts;
    hide HasRoom, Sent, Level, Ttl;
  }

  /** The query bucket after a tick: its level is what it was at the new rate, less one token for each query sent,
      whatever was taken and given back in between. */
  ghost predicate TickFunded(before: Bucket, after: Bucket, rate: int, sent: nat, now: Instant) {
    before.Valid() && rate >= 0 && Level(after, now) == Level(SetRate(before, rate, now), now) - sent as real
  }

  /** Net query tokens spent equal queries sent, and net destination tokens spent equal the queries that had to be
      paid for; the marks change as the attempts say. */
  lemma TickBalance(v: Snapshot, taken: Snapshot, w: Snapshot, rate: nat, max: nat, attempts: seq<Attempt>, c: Config)
    requires Good(v, c) && rate <= c.maxRate && v.purse.held == 0 && Draws(v, taken, rate, max)
    requires Good(w, c) && Sends(taken, w, attempts, c)
    ensures w.purse.query.Valid()
    ensures var x := Returning(w, w.purse.held);
      && TickFunded(v.purse.query, x.purse.query, rate, QueriesIn(attempts), v.clock) && Good(x, c) && x.purse.held == 0
      && Costs(v, x, TokensIn(attempts)) && x.live == MarkedAll(v.live, attempts, v.clock + Ttl(c))
  {
    hide Ledger, Funded, PendingAddrs, Level, SetRate, TakeUpTo, Refund, Ttl;
    GoodRate(v, rate, c);
    GoodTake(Rated(v, rate), max, c);
    GoodReturn(w, w.purse.held, c);
  }
}
