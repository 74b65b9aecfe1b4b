/** The crawl actor: it probes nodes within its budgets, keeps count of what is in flight, and feeds the pool and
    the reservoir with what comes back. */
module CrawlActors {
  import opened Common
  import opened Nodes
  import opened Budgets
  import opened RecentProbing
  import opened NodePools
  import opened Reservoirs
  import opened ProbeWindows
  import opened ProbeFunds
  import opened CrawlLedgers
  import opened CrawlStates
  import opened CrawlAttempts

  const SCHEDULE_INTERVAL: nat := 5 * MILLIS

  ghost function Victims(victim: Option<Addr>): seq<Addr> {
    if victim.Some? then [victim.value] else []
  }

  /** How a request may end. */
  datatype End = Answered | TimedOut | NotSent

  class CrawlActor {
    const config: Config
    const localId: NodeId
    const hasV4: bool
    const hasV6: bool
    /** Whether there is room in a channel each time the actor comes to one, as it turns out. */
    const room: nat -> bool
    const pool: NodePool
    const responsive: Reservoir
    var pending: map<PendingKey, Request>
    var pendingExpiry: seq<Deadline>
    var subnets: map<Subnet, nat>
    var nextTid: nat
    var query: Bucket
    var destination: Bucket
    var bootstrapQueue: seq<Addr>
    var resolving: nat
    var newQueries: nat
    var revisitQueries: nat
    var bootstrapQueries: nat
    var responses: nat
    var timeouts: nat
    var sendFailures: nat
    var unmatched: nat
    /** How often the actor has come to a channel. */
    var polls: nat
    /** The latest time any step was told. */
    ghost var clock: Instant
    /** Tokens taken from each bucket but not used yet. */
    ghost var held: nat
    ghost var destHeld: nat
    /** When each endpoint was last probed, and last paid for with a destination token. */
    ghost var probed: map<Addr, Instant>
    ghost var paid: map<Addr, Instant>
    /** The endpoints forgotten to make room while they still counted as recent. */
    ghost var evicted: seq<Addr>

    ghost function InFlight(): Desk
      reads this`pending, this`pendingExpiry, this`subnets, this`nextTid
    {
      Desk(pending, pendingExpiry, subnets, nextTid)
    }

    ghost function Wallet(): Purse
      reads this`query, this`held, this`destination, this`destHeld, this`probed, this`paid
    {
      Purse(query, held, destination, destHeld, probed, paid)
    }

    ghost function View(): Snapshot
      reads this, pool, pool.recent, responsive
    {
      Snapshot(InFlight(), Wallet(), pool.RecentAt(clock),
               responsive.index, responsive.reserved, clock, newQueries + revisitQueries + bootstrapQueries,
               responses + timeouts + sendFailures, evicted, bootstrapQueue, resolving)
    }

    ghost predicate PoolOk()
      reads this`clock, pool, pool.recent
    {
      && pool.Valid() && pool.clock <= clock && pool.recentTtl == Ttl(config)
      && pool.recent.capacity == RecentProbeCapacity(config)
    }

    ghost predicate ReservoirOk()
      reads this`clock, responsive
    {
      && responsive.Valid() && responsive.clock <= clock && |responsive.slots| == config.responsiveCapacity
    }

    function Me(): Host {
      Host(localId, hasV4, hasV6, room, responsive.revisitInterval)
    }

    /** What holds at any point of a step. */
    ghost predicate Sound()
      reads this, pool, pool.recent, responsive
    {
      PoolOk() && ReservoirOk() && Good(View(), config)
    }

    /** What holds between steps. */
    ghost predicate Valid()
      reads this, pool, pool.recent, responsive
    {
      Sound() && responsive.reserved == None && held == destHeld == 0
    }

    constructor (c: Config, id: NodeId, v4: bool, v6: bool, channel: nat -> bool, now: Instant)
      requires Resolved(c)
      ensures Valid() && fresh(pool) && fresh(pool.recent) && fresh(responsive) && config == c
      ensures View() == StartView(c, now) && Me() == Host(id, v4, v6, channel, c.revisitInterval) && polls == 0
      ensures pool.queue == [] && pool.capacity == AtLeastOne(c.poolCapacity) && responsive.ttl == c.responsiveTtl
    {
      hide NodePool.Valid, Reservoir.Valid, Good, Live, Deadlines, NewBucket, CeilDiv, RecentProbeCapacity;
      CapacityPositive(c);
      config, localId, hasV4, hasV6, room, polls := c, id, v4, v6, channel, 0;
      pool := new NodePool(c.poolCapacity, c.replacementsPerMinute, c.recentTtlSecs * SECONDS, RecentProbeCapacity(c),
                           now);
      responsive := new Reservoir(c.responsiveCapacity, c.responsiveTtl, c.revisitInterval, now);
      pending, pendingExpiry, subnets, nextTid := map[], [], map[], 1;
      query := NewBucket(c.maxRate, c.burst, false, false, now);
      destination := NewBucket(c.destinationsPerMinute, AtLeastOne(CeilDiv(c.destinationsPerMinute, 60)), true, false,
                               now);
      bootstrapQueue, resolving := [], 0;
      newQueries, revisitQueries, bootstrapQueries, responses, timeouts, sendFailures, unmatched := 0, 0, 0, 0, 0, 0, 0;
      clock, held, destHeld, probed, paid, evicted := now, 0, 0, map[], map[], [];
      new;
      GoodStart(c, now);
      NothingLive(pool.recent.entries, now);
      assert View() == StartView(c, now);
    }

    /** What every step keeps, spelled out: each query sent was answered, timed out, failed to leave or is pending;
        requests in flight stay within the limits, each subnet's counter being its number of requests; and no
        endpoint was ever forgotten to make room while it still counted as recent. */
    lemma Safety()
      requires Valid()
      ensures newQueries + revisitQueries + bootstrapQueries == responses + timeouts + sendFailures + |pending|
      ensures |pending| <= config.maxInFlight && evicted == []
      ensures forall s :: CountOf(subnets, s) == |InSubnet(pending, s)| <= config.maxPerSubnet
    {
      hide NodePool.Valid, NodePool.RecentAt, Reservoir.Valid, Funded, Filed, Listed, RecentProbeCapacity, Known;
    }

    /** Time passes; only the books know. */
    ghost method Elapse(now: Instant)
      requires Valid() && clock <= now
      modifies this`clock
      ensures Valid() && View() == old(View()).(clock := now, live := Live(old(pool.RecentAt(clock)), now))
    {
      hide NodePool.Valid, Reservoir.Valid, Good, Live, Deadlines, RecentProbeCapacity;
      responsive.Fits();
      LiveLater(Deadlines(pool.recent.entries), clock, now);
      GoodElapse(View(), now, config);
      clock := now;
    }

    /** Send a request, unless too many are in flight in all or for the subnet, the node is backing off, or its
        family has no channel with room. */
    method TryDispatch(node: Node, purpose: Purpose, now: Instant) returns (ok: bool)
      requires now == clock && ReservoirOk() && ReservedFor(View(), node.addr)
      modifies this`pending, this`pendingExpiry, this`subnets, this`nextTid, this`polls, responsive
      ensures ReservoirOk() && responsive.index == old(responsive.index)
      ensures InFlight() == if ok then Sent(old(InFlight()), node, purpose, now, config) else old(InFlight())
      ensures ok <==> CanSend(node, old(responsive.Infos()), old(InFlight()), now, Me(), config) && room(old(polls))
      ensures polls == old(polls) +
        if CanSend(node, old(responsive.Infos()), old(InFlight()), now, Me(), config) then 1 else 0
      ensures ok ==> HasRoom(old(InFlight()), node, config) && responsive.reserved == None
      ensures ok ==> (node.addr.V4? ==> hasV4) && (node.addr.V6? ==> hasV6)
      ensures responsive.Infos() == if ok then ProbedInfo(old(responsive.Infos()), node.addr, now)
                                    else old(responsive.Infos())
      ensures !ok ==> responsive.reserved == old(responsive.reserved)
    {
      hide Reservoir.Valid, CanSend, IndexOk, Members, Moved, Sent;
      ok := MayDispatch(node, now);
      if ok {
        Enter(node, purpose, now);
        responsive.IndexKeys();
        responsive.RecordProbe(node.addr, now);
      }
    }

    /** Whether a request to the node may leave now. */
    method MayDispatch(node: Node, now: Instant) returns (ok: bool)
      requires ReservoirOk()
      modifies this`polls
      ensures ok <==> CanSend(node, responsive.Infos(), InFlight(), now, Me(), config) && room(old(polls))
      ensures polls == old(polls) + if CanSend(node, responsive.Infos(), InFlight(), now, Me(), config) then 1 else 0
      ensures ok ==> HasRoom(InFlight(), node, config)
      ensures ok ==> (node.addr.V4? ==> hasV4) && (node.addr.V6? ==> hasV6)
    {
      hide Reservoir.Valid, Blocked, IndexOk, Members;
      if |pending| >= config.maxInFlight {
        return false;
      }
      responsive.IndexKeys();
      var backing := responsive.IsBackingOff(node.addr, now);
      if backing || CountOf(subnets, SubnetOf(node.addr)) >= config.maxPerSubnet || !HasChannel(node.addr, Me()) {
        return false;
      }
      ok := room(polls);
      polls := polls + 1;
    }

    /** Put a request on the desk. */
    method Enter(node: Node, purpose: Purpose, now: Instant)
      modifies this`pending, this`pendingExpiry, this`subnets, this`nextTid
      ensures InFlight() == Sent(old(InFlight()), node, purpose, now, config)
    {
      var key, subnet, deadline := PendingKey(node.addr, nextTid), SubnetOf(node.addr), now + config.requestTimeout;
      pending := pending[key := Request(node, purpose, now, deadline, subnet)];
      pendingExpiry := pendingExpiry + [Deadline(deadline, key)];
      subnets := subnets[subnet := CountOf(subnets, subnet) + 1];
      nextTid := nextTid + 1;
    }

    /** Probe a node that is not taken from the pool. It is paid for, or it is recent already and either known or
        a bootstrap node; so nothing recent is forgotten for it. */
    method Probe(node: Node, purpose: Purpose, now: Instant, ghost pays: bool) returns (ok: bool)
      requires Sound() && now == clock && purpose != New
      requires ReservedFor(View(), node.addr) && MayProbe(View(), node, pays, config)
      modifies this, pool`clock, pool.recent, responsive
      ensures Sound() && View() == if ok then Probing(old(View()), node, purpose, pays, config) else old(View())
      ensures ok <==> CanSend(node, old(Infos()), old(View()).desk, now, Me(), config) && room(old(polls))
      ensures polls == old(polls) + if CanSend(node, old(Infos()), old(View()).desk, now, Me(), config) then 1 else 0
      ensures ok ==> HasRoom(old(View()).desk, node, config)
      ensures Infos() == if ok then ProbedInfo(old(Infos()), node.addr, now) else old(Infos())
    {
      hide NodePool.Valid, NodePool.RecentAt, Reservoir.Valid, Good, RecentProbeCapacity, Sent, HasRoom, MayProbe,
           Probing, Ttl, CanSend, ProbedInfo, Members;
      ghost var v := View();
      ok := TryDispatch(node, purpose, now);
      if ok {
        Settle(node, purpose, now, pays, v);
      }
    }

    /** Take the pool's head and mark it as probed, in the room that the tokens in hand assure. */
    method TakeFront(now: Instant) returns (node: Node)
      requires Sound() && now == clock && pool.queue != [] && View().purse.held > 0 && View().purse.destHeld > 0
      modifies this`evicted, pool`queue, pool`queued, pool`clock, pool.recent
      ensures PoolOk() && pool.CanRestore(node.addr) && node == old(pool.queue)[0].node
      ensures pool.queue == old(pool.queue)[1..]
      ensures View() == old(View()).(live := old(View()).live[node.addr := now + Ttl(config)])
    {
      hide NodePool.Valid, NodePool.RecentAt, NodePool.CanRestore, Good, CrawlActor.InFlight, CrawlActor.Wallet,
           RecentProbeCapacity, Ttl, Known;
      NoneDisplaced(View(), pool.queue[0].node, true, config);
      var taken; ghost var victim;
      taken, victim := pool.TakeFrontForProbe(now);
      assert evicted + [] == evicted;
      evicted := evicted + Victims(victim);
      node := taken.value;
    }

    /** The head was refused: back to where it was, without a mark, even if it was recent before it was taken. */
    method PutFrontBack(node: Node, now: Instant, ghost v: Snapshot)
      requires PoolOk() && ReservoirOk() && now == clock && pool.CanRestore(node.addr) && Good(v, config)
      requires View() == v.(live := v.live[node.addr := now + Ttl(config)])
      modifies pool`queue, pool`queued, pool.recent
      ensures Sound() && View() == v.(live := v.live - {node.addr})
      ensures pool.queue == [Queued(node, now)] + old(pool.queue)
    {
      hide NodePool.Valid, NodePool.CanRestore, Reservoir.Valid, Good, CrawlActor.InFlight, CrawlActor.Wallet,
           RecentProbeCapacity, Ttl, Live, Deadlines;
      LiveWithout(Deadlines(pool.recent.entries), node.addr, now);
      GoodFewer(v, v.index, v.reserved, v.live - {node.addr}, config);
      pool.RestoreFront(node, now);
      assert v.live[node.addr := now + Ttl(config)] - {node.addr} == v.live - {node.addr};
    }

    /** A request to the pool's head has left: count it. */
    method SettleNew(node: Node, now: Instant, ghost v: Snapshot)
      requires PoolOk() && ReservoirOk() && now == clock
      requires Good(v, config) && MayProbe(v, node, true, config) && HasRoom(v.desk, node, config)
      requires View() == v.(desk := Sent(v.desk, node, New, now, config), reserved := None,
                            live := v.live[node.addr := now + Ttl(config)])
      modifies this`newQueries, this`revisitQueries, this`bootstrapQueries, this`held, this`destHeld, this`probed
      modifies this`paid
      ensures Sound() && View() == Probing(v, node, New, true, config)
    {
      hide NodePool.Valid, NodePool.RecentAt, Reservoir.Valid, Good, CrawlActor.InFlight, CrawlActor.Wallet,
           RecentProbeCapacity, Sent, Spent, HasRoom, MayProbe, Ttl;
      GoodProbe(v, node, New, true, config);
      Spend(node.addr, now, true);
      Count(New);
    }

    /** Note in the books that tokens in hand were used for a probe. */
    ghost method Spend(addr: Addr, now: Instant, pays: bool)
      modifies this`held, this`destHeld, this`probed, this`paid
      ensures Wallet() == Spent(old(Wallet()), addr, pays, now)
    {
      held, probed := if held > 0 then held - 1 else 0, probed[addr := now];
      destHeld := if pays && destHeld > 0 then destHeld - 1 else destHeld;
      paid := if pays then paid[addr := now] else paid;
    }

    /** Probe the pool's head for a destination token. Without one, the head stays; when its dispatch is refused, it
        goes back and so does the token, but its mark is lost. */
    method ProbeFront(now: Instant, ghost v: Snapshot) returns (ok: bool, paid: bool, node: Node)
      requires Sound() && now == clock && v == View() && View().reserved == None && pool.queue != []
      requires View().purse.held > 0
      modifies this, pool`queue, pool`queued, pool`clock, pool.recent, responsive
      ensures Sound() && node == old(pool.queue)[0].node && (paid <==> CanPay(v))
      ensures ok <==> paid && CanSend(node, old(Infos()), v.desk, now, Me(), config) && room(old(polls))
      ensures polls == old(polls) + if paid && CanSend(node, old(Infos()), v.desk, now, Me(), config) then 1 else 0
      ensures Infos() == if ok then ProbedInfo(old(Infos()), node.addr, now) else old(Infos())
      ensures pool.queue == if ok then old(pool.queue)[1..]
                            else if paid then [Queued(node, now)] + old(pool.queue)[1..] else old(pool.queue)
      ensures if ok then Queried(v, View(), node, New, true, {}, config)
              else Chosen(v, View(), false, if paid then {node.addr} else {}) && View().reserved == None
    {
      hide NodePool.Valid, NodePool.RecentAt, NodePool.CanRestore, Reservoir.Valid, Good, Chosen, Pays, Unpays, Queried,
           HasRoom, Probing, CrawlActor.InFlight, CrawlActor.Wallet, MayProbe, RecentProbeCapacity, Ttl, CanSend,
           CanPay, ProbedInfo, Members;
      node := pool.queue[0].node;
      ChosenSelf(v);
      paid := PayDestination(now);
      PaidFor(v, v, View(), paid, {});
      if !paid {
        return false, false, node;
      }
      ok := SendFront(now, v);
    }

    method SendFront(now: Instant, ghost v: Snapshot) returns (ok: bool)
      requires Sound() && now == clock && Chosen(v, View(), true, {}) && View().reserved == None
      requires pool.queue != [] && View().purse.held > 0 && View().purse.destHeld > 0
      modifies this, pool`queue, pool`queued, pool`clock, pool.recent, responsive
      ensures Sound()
      ensures var can := CanSend(old(pool.queue)[0].node, old(Infos()), old(View()).desk, now, Me(), config);
        (ok <==> can && room(old(polls))) && polls == old(polls) + if can then 1 else 0
      ensures Infos() == if ok then ProbedInfo(old(Infos()), old(pool.queue)[0].node.addr, now) else old(Infos())
      ensures pool.queue == if ok then old(pool.queue)[1..]
                            else [Queued(old(pool.queue)[0].node, now)] + old(pool.queue)[1..]
      ensures if ok then Queried(v, View(), old(pool.queue)[0].node, New, true, {}, config)
              else Chosen(v, View(), false, {old(pool.queue)[0].node.addr}) && View().reserved == None
    {
      hide NodePool.Valid, NodePool.RecentAt, NodePool.CanRestore, Reservoir.Valid, Good, Chosen, Unpays, Queried,
           HasRoom, Probing, CrawlActor.InFlight, CrawlActor.Wallet, Known, RecentProbeCapacity, Ttl, Sent, CanSend,
           ProbedInfo, Members;
      ghost var w := View();
      var node := TakeFront(now);
      ok := TryDispatch(node, New, now);
      if ok {
        SettleNew(node, now, w);
        ChosenQueried(v, w, node, New, true, {}, config);
      } else {
        PutFrontBack(node, now, w);
        ghost var x := View();
        ChosenLess(v, w, x, node.addr);
        UnpayDestination();
        Unpaid(v, x, View(), {node.addr});
      }
    }

    /** A scheduler tick: give up on overdue requests, look for bootstrap nodes if there is need, and send queries
        at the rate that the metadata queue's pressure allows. Unused query tokens go back. */
    method OnScheduleTick(now: Instant, pressure: real, gateOpen: bool)
      returns (sent: nat, ghost attempts: seq<Attempt>, ghost scenes: seq<Scene>)
      requires Valid() && clock <= now
      modifies this, pool`queue, pool`queued, pool`clock, pool.recent, responsive
      ensures Valid() && View().clock == now && sent == QueriesIn(attempts)
      ensures View().queries == old(View()).queries + sent && |attempts| <= sent + 1
      ensures View().resolving == old(View()).resolving + (if Resolves(old(Stage()), gateOpen, config) then 1 else 0)
      ensures TickFunded(old(View()).purse.query, View().purse.query, RateForPressure(config, pressure), sent, now)
      ensures Level(View().purse.destination, now) ==
        Level(old(View()).purse.destination, now) - TokensIn(attempts) as real
      ensures View().live == MarkedAll(Live(old(View()).live, now), attempts, now + Ttl(config))
      ensures Current(View().desk, now)
      ensures Makings(scenes, attempts, Me(), config) && SameStage(scenes[|attempts|], Stage())
      ensures TickStarts(old(Stage()), scenes[0], config, now)
      ensures Stops(sent, old(View()).purse.query, RateForPressure(config, pressure), attempts, View().desk, now,
                    config)
      ensures forall a :: a in Live(old(View()).live, now) ==>
        (a !in View().live <==> Loses(scenes, attempts, Me(), config, a))
    {
      hide NodePool.Valid, NodePool.RecentAt, Reservoir.Valid, Good, CrawlActor.InFlight, CrawlActor.Wallet,
           RecentProbeCapacity, Resolved, RateForPressure, Draws, Sends, TickFunded, Current, Live, MarkedAll, Level,
           Ttl, TokensIn, QueriesIn, Makes, SameStage, TickStarts, Loses, Lapsed, Members, Stops;
      ghost var s := Stage();
      StartTick(now, gateOpen);
      ghost var begun := Stage();
      sent, attempts, scenes := SpendBudget(now, pressure);
      TickBegun(s, begun, scenes[0], config, now);
      LostInTick(scenes, attempts, Stage(), Me(), config);
    }

    /** Time passes, overdue requests end, and a search for bootstrap nodes may start. */
    method StartTick(now: Instant, gateOpen: bool)
      requires Valid() && clock <= now
      modifies this`clock, this`pending, this`pendingExpiry, this`subnets, this`responses, this`timeouts
      modifies this`sendFailures, this`resolving, responsive
      ensures Valid() && clock == now && View().queries == old(View()).queries && Current(View().desk, now)
      ensures View().purse == old(View()).purse && TickStarts(old(Stage()), Stage(), config, now)
      ensures View().resolving == old(View()).resolving + (if Resolves(old(Stage()), gateOpen, config) then 1 else 0)
    {
      hide NodePool.Valid, Reservoir.Valid, Good, CrawlActor.Wallet, RecentProbeCapacity, Live, Deadlines, Current,
           Lapsed, Members;
      Elapse(now);
      ExpirePending(now);
      MaybeResolveBootstrap(gateOpen);
      LedgerKept(View(), config);
    }

    /** Set the rate, draw as many tokens as the burst allows, send queries for them and return the rest. */
    method SpendBudget(now: Instant, pressure: real)
      returns (sent: nat, ghost attempts: seq<Attempt>, ghost scenes: seq<Scene>)
      requires Valid() && now == clock && Current(View().desk, now)
      modifies this, pool`queue, pool`queued, pool`clock, pool.recent, responsive
      ensures Valid() && View().clock == now && sent == QueriesIn(attempts)
      ensures View().queries == old(View()).queries + sent && View().resolving == old(View()).resolving
      ensures TickFunded(old(View()).purse.query, View().purse.query, RateForPressure(config, pressure), sent, now)
      ensures Costs(old(View()), View(), TokensIn(attempts))
      ensures View().live == MarkedAll(old(View()).live, attempts, now + Ttl(config))
      ensures Current(View().desk, now)
      ensures Makings(scenes, attempts, Me(), config)
      ensures SameStage(old(Stage()), scenes[0]) && SameStage(scenes[|attempts|], Stage()) && |attempts| <= sent + 1
      ensures Stops(sent, old(View()).purse.query, RateForPressure(config, pressure), attempts, View().desk, now,
                    config)
    {
      hide CrawlActor.Sound, CrawlActor.View, CrawlActor.Valid, CrawlActor.Infos, RateForPressure, Draws, TickFunded,
           Current, Sends, Costs, MarkedAll, TokensIn, QueriesIn, Ttl, Good, Makings, SameStage, Stops;
      AtRest();
      ghost var v := View();
      RateKnown(v, config, pressure);
      var rate := RateForPressure(config, pressure);
      var budget := DrawBudget(rate, now);
      ghost var taken := View();
      DrawsKeeps(v, taken, rate, config.burst);
      ghost var s := Stage();
      DrawsSame(old(Stage()), taken, rate, config.burst);
      sent, attempts, scenes := SendQueries(budget, now);
      ghost var w := View();
      Viewed();
      TickBalance(v, taken, w, rate, config.burst, attempts, config);
      SendsKeeps(taken, w, attempts, config);
      ghost var t := Stage();
      ReturnsSame(t, budget - sent);
      DrawnWhole(v, taken, rate, config.burst);
      StopsFor(sent, v.purse.query, rate, attempts, w.desk, now, config);
      ReturnBudget(budget - sent);
      Settled();
    }

    /** Between steps nothing is out of its schedule or in hand; and that is all it takes. */
    lemma AtRest()
      requires Valid()
      ensures Sound() && Good(View(), config) && View().reserved == None && View().clock == clock
      ensures View().purse.held == View().purse.destHeld == 0
    {
    }

    lemma Viewed()
      requires Sound()
      ensures Good(View(), config) && View().bootstrap == bootstrapQueue && View().clock == clock
      ensures View().desk.pending == pending
    {
    }

    lemma Settled()
      requires Sound() && View().reserved == None && View().purse.held == View().purse.destHeld == 0
      ensures Valid()
    {
    }

    method DrawBudget(rate: nat, now: Instant) returns (budget: nat)
      requires Sound() && now == clock && rate <= config.maxRate && View().purse.held == 0
      modifies this`query, this`held
      ensures Sound() && Draws(old(View()), View(), rate, config.burst) && budget == View().purse.held
      ensures Infos() == old(Infos())
    {
      hide NodePool.Valid, NodePool.RecentAt, Reservoir.Valid, Good, CrawlActor.InFlight, RecentProbeCapacity, SetRate,
           TakeUpTo;
      GoodDraw(View(), rate, config.burst, config);
      query := SetRate(query, rate, now);
      var taken := TakeUpTo(query, config.burst, now);
      query, budget := taken.0, taken.1;
      held := budget;
    }

    method ReturnBudget(count: nat)
      requires Sound() && View().purse.query.Valid() && count == View().purse.held
      requires Good(Returning(View(), count), config)
      modifies this`query, this`held
      ensures Sound() && View() == Returning(old(View()), count) && Infos() == old(Infos())
    {
      hide NodePool.Valid, NodePool.RecentAt, Reservoir.Valid, Good, CrawlActor.InFlight, RecentProbeCapacity, Refund;
      query, held := Refund(query, count), 0;
    }

    /** Start resolving bootstrap names when none is waiting, the pool is low and the gate's interval is over. */
    method MaybeResolveBootstrap(gateOpen: bool)
      requires Valid()
      modifies this`resolving
      ensures Valid() && View() == old(View()).(resolving := View().resolving)
      ensures resolving == old(resolving) + (if bootstrapQueue == [] && config.bootstrapMaxNodes > 0
                                               && |pool.queue| < config.lowWatermark && gateOpen then 1 else 0)
    {
      hide NodePool.Valid, NodePool.RecentAt, Reservoir.Valid, Good, CrawlActor.InFlight, CrawlActor.Wallet,
           RecentProbeCapacity;
      if bootstrapQueue == [] && config.bootstrapMaxNodes > 0 && |pool.queue| < config.lowWatermark && gateOpen {
        GoodBootstrap(View(), bootstrapQueue, resolving + 1, config);
        resolving := resolving + 1;
      }
    }

    /** Send up to `budget` queries, as long as there is room in flight and someone to ask. */
    method SendQueries(budget: nat, now: Instant)
      returns (sent: nat, ghost attempts: seq<Attempt>, ghost scenes: seq<Scene>)
      requires Sound() && now == clock && View().reserved == None && View().purse.held == budget
      requires Current(View().desk, now)
      modifies this, pool`queue, pool`queued, pool`clock, pool.recent, responsive
      ensures Sound() && now == clock && sent == QueriesIn(attempts)
      ensures Sends(old(View()), View(), attempts, config) && Current(View().desk, now)
      ensures Makings(scenes, attempts, Me(), config) && scenes[0] == old(Stage()) && scenes[|attempts|] == Stage()
      ensures sent == budget || |View().desk.pending| >= config.maxInFlight
        || (attempts != [] && attempts[|attempts| - 1].target == None)
      ensures |attempts| <= sent + 1
    {
      hide CrawlActor.Sound, CrawlActor.View, CrawlActor.Stage, Sends, Current, Resolved, Good, QueriesIn, Makes;
      Viewed();
      IsResolved(View(), config);
      NoQueries();
      sent, attempts, scenes := 0, [], [Stage()];
      SendsNone(View(), config);
      while sent < budget
        invariant Sound() && now == clock && sent == QueriesIn(attempts) <= budget
        invariant Sends(old(View()), View(), attempts, config) && Current(View().desk, now)
        invariant Makings(scenes, attempts, Me(), config) && scenes[0] == old(Stage()) && scenes[|attempts|] == Stage()
        invariant |attempts| == sent
      {
        if |pending| >= config.maxInFlight {
          Viewed();
          break;
        }
        SendsKeeps(old(View()), View(), attempts, config);
        var ok;
        ok, attempts, scenes := SendNext(now, attempts, scenes, old(View()));
        if !ok {
          break;
        }
        sent := sent + 1;
      }
    }

    /** One more attempt. */
    method SendNext(now: Instant, ghost attempts: seq<Attempt>, ghost scenes: seq<Scene>, ghost v: Snapshot)
      returns (ok: bool, ghost more: seq<Attempt>, ghost later: seq<Scene>)
      requires Sound() && now == clock && Sends(v, View(), attempts, config) && Current(View().desk, now)
      requires Makings(scenes, attempts, Me(), config) && scenes[|attempts|] == Stage()
      requires Resolved(config)
      requires View().reserved == None && View().purse.held > 0 && |pending| < config.maxInFlight
      modifies this, pool`queue, pool`queued, pool`clock, pool.recent, responsive
      ensures |more| == |attempts| + 1
      ensures Sound() && now == clock && Sends(v, View(), more, config) && Current(View().desk, now)
      ensures Makings(later, more, Me(), config) && later[0] == scenes[0] && later[|more|] == Stage()
      ensures QueriesIn(more) == QueriesIn(attempts) + (if ok then 1 else 0)
      ensures !ok ==> more != [] && more[|more| - 1].target == None
    {
      hide CrawlActor.Sound, CrawlActor.View, CrawlActor.Infos, Good, Makes, Current, Resolved, Sends;
      ghost var s := Stage();
      ghost var e;
      Viewed();
      ok, e := ScheduleOne(now);
      more, later := attempts + [e], scenes + [Stage()];
      MakingsMore(scenes, attempts, Stage(), e, Me(), config);
      MakesAttempt(s, Stage(), e, Me(), config);
      SendsOne(v, s.view, View(), attempts, e, config);
      AttemptedCurrent(s.view, View(), e, config);
      AttemptedKeeps(s.view, View(), e, config);
      Viewed();
      assert more[..|attempts|] == attempts;
    }

    /** Give up on every request whose deadline has passed. */
    method ExpirePending(now: Instant)
      requires Valid() && now == clock
      modifies this`pending, this`pendingExpiry, this`subnets, this`responses, this`timeouts, this`sendFailures
      modifies responsive
      ensures Valid() && Current(View().desk, now)
      ensures forall k :: k in pending ==> k in old(pending) && pending[k] == old(pending)[k]
      ensures forall k :: k in old(pending) && old(pending)[k].deadline > now ==> k in pending
      ensures (pending, Infos()) == Lapsed(old(pending), old(Infos()), old(pendingExpiry), now)
      ensures View() == old(View()).(desk := View().desk, ended := View().ended)
    {
      hide NodePool.Valid, NodePool.RecentAt, Reservoir.Valid, Good, CrawlActor.Wallet, RecentProbeCapacity;
      while pendingExpiry != [] && pendingExpiry[0].at <= now
        invariant Valid() && now == clock
        invariant forall k :: k in pending ==> k in old(pending) && pending[k] == old(pending)[k]
        invariant forall k :: k in old(pending) && old(pending)[k].deadline > now ==> k in pending
        invariant Lapsed(old(pending), old(Infos()), old(pendingExpiry), now) ==
          Lapsed(pending, Infos(), pendingExpiry, now)
        invariant View() == old(View()).(desk := View().desk, ended := View().ended)
        decreases |pendingExpiry|
      {
        ExpireHead(now);
      }
      GoodOverdue(View(), config, now);
    }

    /** Drop the head of the expiry queue, and its request if it is still pending. */
    method ExpireHead(now: Instant)
      requires Valid() && now == clock && pendingExpiry != []
      modifies this`pending, this`pendingExpiry, this`subnets, this`responses, this`timeouts, this`sendFailures
      modifies responsive
      ensures Valid() && pendingExpiry == old(pendingExpiry)[1..]
      ensures View() == old(View()).(desk := View().desk, ended := View().ended)
      ensures var d := old(pendingExpiry)[0];
        if d.key in old(pending) && old(pending)[d.key].deadline == d.at
        then pending == old(pending) - {d.key}
             && responsive.Infos() == Blamed(old(responsive.Infos()), old(pending)[d.key], now)
             && timeouts == old(timeouts) + 1
        else pending == old(pending) && responsive.Infos() == old(responsive.Infos()) && timeouts == old(timeouts)
    {
      hide NodePool.Valid, NodePool.RecentAt, Reservoir.Valid, Reservoir.Infos, Good, CrawlActor.Wallet,
           RecentProbeCapacity, Released, Blamed;
      var d := pendingExpiry[0];
      if d.key in pending && pending[d.key].deadline == d.at {
        Fail(d.key, now, TimedOut);
      }
      GoodPop(View(), config);
      pendingExpiry := pendingExpiry[1..];
    }

    /** A reply. One that matches no request is only counted; another ends its request, enters the sender into
        the reservoir under the identity it gave, and offers the nodes it names to the pool. */
    method HandleResponse(addr: Addr, tid: nat, id: Option<NodeId>, nodes: seq<Node>, now: Instant)
      requires Valid() && clock <= now
      modifies this, pool`queue, pool`queued, pool`replacements, pool`warmed, pool.recent, responsive
      ensures Valid() && clock == now && View().queries == old(View()).queries && View().evicted == old(View()).evicted
      ensures View().live == Live(old(View()).live, now)
      ensures if PendingKey(addr, tid) in old(View()).desk.pending
              then View().desk == Closed(old(View()).desk, PendingKey(addr, tid)) && responses == old(responses) + 1
                   && Enrolled(responsive.Infos(), Named(old(View()).desk.pending[PendingKey(addr, tid)].node, id), now)
              else View().desk == old(View()).desk && responses == old(responses) && unmatched == old(unmatched) + 1
      ensures pool.View() == if PendingKey(addr, tid) in old(View()).desk.pending
                             then OfferedAll(old(pool.View()), View().live.Keys, nodes, now, pool.capacity)
                             else old(pool.View())
    {
      hide NodePool.Valid, NodePool.RecentAt, NodePool.View, Reservoir.Valid, Good, CrawlActor.InFlight,
           CrawlActor.Wallet, RecentProbeCapacity, Closed, Live, OfferedAll;
      pool.TokensValid();
      Elapse(now);
      ghost var v := View();
      var key := PendingKey(addr, tid);
      var known := HasKey(key);
      if !known {
        unmatched := unmatched + 1;
        return;
      }
      Answer(key, id, now);
      AdmitAll(nodes, now);
    }

    method HasKey(key: PendingKey) returns (r: bool)
      ensures r <==> key in InFlight().pending
    {
      r := key in pending;
    }

    method Answer(key: PendingKey, id: Option<NodeId>, now: Instant)
      requires Valid() && now == clock && key in InFlight().pending
      modifies this`pending, this`subnets, this`responses, this`timeouts, this`sendFailures, responsive
      ensures Valid() && Answers(old(View()), View(), key) && responses == old(responses) + 1
      ensures Enrolled(responsive.Infos(), Named(old(InFlight()).pending[key].node, id), now)
    {
      hide NodePool.Valid, NodePool.RecentAt, Reservoir.Valid, Good, CrawlActor.InFlight, CrawlActor.Wallet,
           RecentProbeCapacity, Closed, Members, IndexOk, Enrolled, Named;
      ghost var v := View();
      GoodEnd(v, key, responsive.index, config);
      var request := Close(key);
      CountEnd(Answered);
      Enroll(Named(request.node, id), now, request.dispatchedAt);
      GoodEnd(v, key, responsive.index, config);
    }

    /** Enter a node that answered into the reservoir. */
    method Enroll(node: Node, now: Instant, probedAt: Instant)
      requires ReservoirOk() && now == clock && responsive.reserved == None
      modifies responsive
      ensures ReservoirOk() && responsive.reserved == None
      ensures responsive.index.Keys <= old(responsive.index).Keys + {node.addr} && node.addr in responsive.index
      ensures Enrolled(responsive.Infos(), node, now)
    {
      hide Reservoir.Valid, Members, IndexOk;
      responsive.IndexKeys();
      responsive.Record(node, now, probedAt);
      responsive.IndexKeys();
    }

    /** Offer nodes to the pool. */
    method AdmitAll(nodes: seq<Node>, now: Instant)
      requires Valid() && now == clock
      modifies pool`queue, pool`queued, pool`replacements, pool`warmed, pool.recent
      ensures Valid() && View() == old(View())
      ensures pool.View() == OfferedAll(old(pool.View()), View().live.Keys, nodes, now, pool.capacity)
    {
      hide NodePool.Valid, NodePool.RecentAt, NodePool.View, Reservoir.Valid, Good, CrawlActor.InFlight,
           CrawlActor.Wallet, RecentProbeCapacity, Offered;
      pool.TokensValid();
      for i := 0 to |nodes|
        invariant Valid() && View() == old(View())
        invariant pool.View() == OfferedAll(old(pool.View()), View().live.Keys, nodes[..i], now, pool.capacity)
      {
        assert nodes[..i + 1][..i] == nodes[..i];
        var outcome := pool.Admit(nodes[i], now);
      }
      assert nodes[..|nodes|] == nodes;
    }

    /** A node heard of from elsewhere. */
    method AdmitDiscovered(node: Node, now: Instant)
      requires Valid() && clock <= now
      modifies this`clock, pool`queue, pool`queued, pool`replacements, pool`warmed, pool.recent
      ensures Valid() && clock == now && View().desk == old(View()).desk && View().purse == old(View()).purse
      ensures View().live == Live(old(View()).live, now)
      ensures pool.View() == Offered(old(pool.View()), View().live.Keys, node, now, pool.capacity).0
    {
      hide NodePool.Valid, NodePool.RecentAt, NodePool.View, Reservoir.Valid, Good, CrawlActor.InFlight,
           CrawlActor.Wallet, RecentProbeCapacity, Live, Offered;
      pool.TokensValid();
      Elapse(now);
      var outcome := pool.Admit(node, now);
    }

    /** A request never left; it may have ended otherwise by now. */
    method HandleSendFailed(key: PendingKey, now: Instant)
      requires Valid() && clock <= now
      modifies this`clock, this`pending, this`subnets, this`responses, this`timeouts, this`sendFailures, responsive
      ensures Valid() && clock == now && View().live == Live(old(View()).live, now)
      ensures if key in old(View()).desk.pending
              then View().desk == Closed(old(View()).desk, key)
                   && responsive.Infos() == Blamed(old(responsive.Infos()), old(View()).desk.pending[key], now)
                   && sendFailures == old(sendFailures) + 1 && timeouts == old(timeouts)
              else View().desk == old(View()).desk && responsive.Infos() == old(responsive.Infos())
                   && sendFailures == old(sendFailures)
    {
      hide NodePool.Valid, NodePool.RecentAt, Reservoir.Valid, Good, CrawlActor.InFlight, CrawlActor.Wallet,
           RecentProbeCapacity, Closed, Live;
      Elapse(now);
      var known := HasKey(key);
      if known {
        Fail(key, now, NotSent);
      }
    }

    /** Bootstrap names were resolved; only a resolution that was started can end. */
    method HandleBootstrapResolved(selected: seq<Addr>)
      requires Valid() && resolving > 0
      modifies this`bootstrapQueue, this`resolving
      ensures Valid() && bootstrapQueue == old(bootstrapQueue) + selected && resolving == old(resolving) - 1
      ensures View() == old(View()).(bootstrap := bootstrapQueue, resolving := resolving)
    {
      hide NodePool.Valid, NodePool.RecentAt, Reservoir.Valid, Good, CrawlActor.InFlight, CrawlActor.Wallet,
           RecentProbeCapacity;
      ResolvingAllowed(View(), config);
      GoodBootstrap(View(), bootstrapQueue + selected, resolving - 1, config);
      bootstrapQueue, resolving := bootstrapQueue + selected, resolving - 1;
    }

    /** A request came to nothing: it timed out or could not be sent. Its node may have to back off. */
    method Fail(key: PendingKey, now: Instant, end: End)
      requires Valid() && now == clock && key in InFlight().pending
      modifies this`pending, this`subnets, this`responses, this`timeouts, this`sendFailures, responsive
      ensures Valid() && Fails(old(View()), View(), key)
      ensures responsive.Infos() == Blamed(old(responsive.Infos()), old(InFlight()).pending[key], now)
      ensures timeouts == old(timeouts) + (if end == TimedOut then 1 else 0)
      ensures sendFailures == old(sendFailures) + (if end == NotSent then 1 else 0)
    {
      hide NodePool.Valid, NodePool.RecentAt, Reservoir.Valid, Good, CrawlActor.InFlight, CrawlActor.Wallet,
           RecentProbeCapacity, Closed, Failed, IndexOk;
      GoodEnd(View(), key, responsive.index, config);
      var request := Close(key);
      CountEnd(end);
      Blame(request, now);
    }

    method Blame(request: Request, now: Instant)
      requires ReservoirOk() && now == clock && responsive.reserved == None
      modifies responsive
      ensures ReservoirOk() && responsive.reserved == None && responsive.index == old(responsive.index)
      ensures responsive.Infos() == Blamed(old(responsive.Infos()), request, now)
    {
      hide Reservoir.Valid, Failed, IndexOk, Members;
      responsive.IndexKeys();
      var counted := responsive.RecordFailure(request.node.addr, request.dispatchedAt, now);
    }

    /** Take a request off the desk. */
    method Close(key: PendingKey) returns (request: Request)
      requires key in InFlight().pending
      modifies this`pending, this`subnets
      ensures InFlight() == Closed(old(InFlight()), key) && request == old(InFlight()).pending[key]
    {
      request := pending[key];
      pending := pending - {key};
      subnets := Released(subnets, request.subnet);
    }

    method CountEnd(end: End)
      modifies this`responses, this`timeouts, this`sendFailures
      ensures responses + timeouts + sendFailures == old(responses + timeouts + sendFailures) + 1
      ensures responses == old(responses) + (if end == Answered then 1 else 0)
      ensures timeouts == old(timeouts) + (if end == TimedOut then 1 else 0)
      ensures sendFailures == old(sendFailures) + (if end == NotSent then 1 else 0)
    {
      match end {
        case Answered => responses := responses + 1;
        case TimedOut => timeouts := timeouts + 1;
        case NotSent => sendFailures := sendFailures + 1;
      }
    }

    /** Send one query: to a bootstrap node while the pool is low, else to the pool's next node, else to a node
        worth another visit. The state found decides which, but for the room in the channels. */
    method ScheduleOne(now: Instant) returns (ok: bool, ghost e: Attempt)
      requires Sound() && now == clock && View().reserved == None && View().purse.held > 0
      modifies this, pool`queue, pool`queued, pool`clock, pool.recent, responsive
      ensures Sound() && ok == e.target.Some? && Makes(old(Stage()), Stage(), e, Me(), config)
    {
      hide CrawlActor.Sound, CrawlActor.View, CrawlActor.Infos, Good, Chosen, Queried, Attempted, HeadChoice,
           QueueAfter, PaysBootstrap, SendsBootstrap, Follows, InfosAfter, ProbedInfo, Revisits, OtherFollows, Makes;
      ghost var v, s := View(), Stage();
      ChosenSelf(v);
      Viewed();
      var skip := false;
      if |pool.queue| < config.lowWatermark && bootstrapQueue != [] {
        var sent, paid; ghost var pays;
        sent, paid, pays := ProbeBootstrap(now, v);
        if sent {
          e := Attempt(Some(Node(localId, v.bootstrap[0])), Bootstrap, pays, None, None);
          AttemptedQuery(v, View(), e, config);
          BootstrapMade(s, Stage(), e, Me(), config);
          return true, e;
        }
        skip := !paid;
        Viewed();
      }
      ghost var w := Stage();
      ChosenKeeps(v, View(), {});
      ok, e := ScheduleOther(now, skip, v);
      OtherMade(s, w, Stage(), e, skip, Me(), config);
    }

    /** The pool's next node unless it is passed over, else a revisit. */
    method ScheduleOther(now: Instant, skip: bool, ghost v: Snapshot) returns (ok: bool, ghost e: Attempt)
      requires Sound() && now == clock && Chosen(v, View(), false, {}) && View().reserved == None
      requires View().purse.held > 0
      modifies this, pool`queue, pool`queued, pool`clock, pool.recent, responsive
      ensures Sound() && ok == e.target.Some? && Attempted(v, View(), e, config)
      ensures OtherFollows(old(Stage()), Stage(), e, skip, Me(), config)
    {
      hide CrawlActor.Sound, CrawlActor.View, CrawlActor.Infos, Good, Chosen, Queried, Attempted, HeadChoice,
           InfosAfter, ProbedInfo, Revisits, HeadPolls;
      ghost var s, choice := Stage(), Unaffordable;
      ChosenSelf(View());
      Viewed();
      if !skip {
        var sent;
        sent, choice := TryHead(now, v);
        if sent {
          e := Attempt(Some(s.queue[choice.index].node), New, true, None, None);
          AttemptedQuery(v, View(), e, config);
          InfosProbed(s.infos, e.target.value, now);
          return true, e;
        }
      }
      ghost var refused := if choice.PutsBack? then Some(s.queue[choice.index].node) else None;
      ghost var x := Stage();
      ok, e := Otherwise(now, refused, v);
      RevisitsFrom(s, x, Stage(), e, x.polls, Me(), config);
    }

    /** Probe the pool's next node. */
    method TryHead(now: Instant, ghost v: Snapshot) returns (sent: bool, ghost choice: Choice)
      requires Sound() && now == clock && Chosen(v, View(), false, {}) && View().reserved == None
      requires View().purse.held > 0
      modifies this, pool`queue, pool`queued, pool`clock, pool.recent, responsive
      ensures Sound() && !choice.ToBootstrap? && choice == HeadChoice(old(Stage()), room(old(polls)), Me(), config)
      ensures polls == old(polls) + HeadPolls(old(Stage()), Me(), config)
      ensures pool.queue == QueueAfter(old(Stage()), choice) && (sent <==> choice.ToHead?)
      ensures choice.ToHead? || choice.PutsBack? ==> choice.index < |old(pool.queue)|
      ensures if sent
              then Queried(v, View(), old(pool.queue)[choice.index].node, New, true, {}, config)
                   && Infos() == ProbedInfo(old(Infos()), old(pool.queue)[choice.index].node.addr, now)
              else var gone := if choice.PutsBack? then {old(pool.queue)[choice.index].node.addr} else {};
                   Chosen(v, View(), false, gone) && Chosen(old(View()), View(), false, gone)
                   && View().reserved == None && View().purse.held == old(View()).purse.held
                   && Infos() == old(Infos()) && now == clock
    {
      hide CrawlActor.Sound, CrawlActor.View, CrawlActor.Infos, Good, Chosen, Queried, CanSend, CanPay, FirstOpen,
           ProbedInfo, HeadChoice, QueueAfter, HeadPolls;
      ghost var s, w := Stage(), View();
      ChosenSelf(w);
      Viewed();
      sent := false;
      var found; ghost var i;
      found, i := FindFront(now);
      if !found {
        HeadChosen(s, i, false, false, room(polls), Me(), config);
        HeadLeft(s, i, false, false);
        return sent, PassesOver(i);
      }
      var paid, node;
      sent, paid, node := ProbeFront(now, w);
      Viewed();
      ghost var can := paid && CanSend(s.queue[i].node, s.infos, s.view.desk, s.view.clock, Me(), config);
      HeadLeft(s, i, paid, sent);
      HeadChosen(s, i, paid, can, room(s.polls), Me(), config);
      choice := HeadChoice(s, room(s.polls), Me(), config);
      if sent {
        QueriedAfter(v, w, View(), node, New, true, {}, config);
      } else {
        ChosenTrans(v, w, View(), if paid then {node.addr} else {});
        ChosenKeeps(w, View(), if paid then {node.addr} else {});
      }
    }

    /** Nobody was queried so far: revisit a node, if one is due. */
    method Otherwise(now: Instant, ghost refused: Option<Node>, ghost v: Snapshot) returns (ok: bool, ghost e: Attempt)
      requires Sound() && now == clock && Chosen(v, View(), false, EndpointOf(refused)) && View().reserved == None
      requires View().purse.held > 0
      modifies this, pool`clock, pool.recent, responsive
      ensures Sound() && ok == e.target.Some? && e.purpose == Revisit && e.refused == refused
      ensures Attempted(v, View(), e, config) && InfosAfter(old(Infos()), Infos(), e.target, now)
      ensures Revisits(old(Stage()), Stage(), e, old(polls), Me(), config)
    {
      hide CrawlActor.Sound, CrawlActor.View, CrawlActor.Infos, Good, Chosen, Queried, Refused, Attempted, InfosAfter,
           Revisits;
      ghost var x, s := View(), Stage();
      ChosenLive(v, x, false, EndpointOf(refused));
      ghost var target, pays, offered;
      ok, target, pays, offered := ScheduleRevisit(now);
      e := Attempt(target, Revisit, pays, refused, offered);
      RevisitsRefused(s, Stage(), Attempt(target, Revisit, pays, None, offered), refused, s.polls, Me(), config);
      if ok {
        QueriedAfter(v, x, View(), target.value, Revisit, pays, EndpointOf(refused), config);
        AttemptedQuery(v, View(), e, config);
      } else {
        RefusedAfter(v, x, View(), EndpointOf(refused));
        AttemptedNone(v, View(), e, config);
      }
    }

    /** Probe the first bootstrap address, paying for it unless it is recent. */
    method ProbeBootstrap(now: Instant, ghost v: Snapshot)
      returns (ok: bool, paid: bool, ghost pays: bool)
      requires Sound() && now == clock && v == View() && View().reserved == None && View().purse.held > 0
      requires bootstrapQueue != []
      modifies this, pool`clock, pool.recent, responsive
      ensures Sound() && (pays <==> v.bootstrap[0] !in v.live) && (paid <==> PaysBootstrap(old(Stage())))
      ensures ok <==> SendsBootstrap(old(Stage()), room(old(polls)), Me(), config)
      ensures polls == old(polls) + if SendsBootstrap(old(Stage()), true, Me(), config) then 1 else 0
      ensures if ok then Queried(v, View(), Node(localId, v.bootstrap[0]), Bootstrap, pays, {}, config)
                         && Infos() == ProbedInfo(old(Infos()), v.bootstrap[0], now)
              else Chosen(v, View(), false, {}) && View().reserved == None && Infos() == old(Infos())
    {
      hide CrawlActor.Sound, CrawlActor.View, CrawlActor.Infos, Good, Chosen, Pays, Queried, CanSend, CanPay,
           ProbedInfo;
      Viewed();
      BootstrapAllowed(v, config);
      var addr := bootstrapQueue[0];
      ChosenSelf(v);
      var recent := IsRecent(addr, now);
      paid, pays := true, !recent;
      if !recent {
        paid := PayDestination(now);
        PaidFor(v, v, View(), paid, {});
        if !paid {
          return false, false, true;
        }
      }
      ChosenKept(v, View(), !recent, {});
      ok := SendBootstrap(now, !recent, v);
    }

    method SendBootstrap(now: Instant, pays: bool, ghost v: Snapshot) returns (ok: bool)
      requires Sound() && now == clock && Chosen(v, View(), pays, {}) && View().reserved == None
      requires View().purse.held > 0
      requires bootstrapQueue != [] && BootstrapEnabled(config) && v.bootstrap == bootstrapQueue
      requires if pays then View().purse.destHeld > 0 else bootstrapQueue[0] in View().live
      modifies this, pool`clock, pool.recent, responsive
      ensures Sound()
      ensures var can := CanSend(Node(localId, v.bootstrap[0]), old(Infos()), old(View()).desk, now, Me(), config);
        (ok <==> can && room(old(polls))) && polls == old(polls) + if can then 1 else 0
      ensures if ok then Queried(v, View(), Node(localId, v.bootstrap[0]), Bootstrap, pays, {}, config)
                         && Infos() == ProbedInfo(old(Infos()), v.bootstrap[0], now)
              else Chosen(v, View(), false, {}) && View().reserved == None && Infos() == old(Infos())
    {
      hide NodePool.Valid, NodePool.RecentAt, Reservoir.Valid, Good, Chosen, Unpays, Queried, HasRoom,
           CrawlActor.InFlight, CrawlActor.Wallet, Known, RecentProbeCapacity, Sent, Spent, Ttl, CanSend, ProbedInfo,
           Members, Probing;
      ghost var w := View();
      ok := Probe(Node(localId, bootstrapQueue[0]), Bootstrap, now, pays);
      if ok {
        ProbingKeeps(w, Node(localId, v.bootstrap[0]), Bootstrap, pays, config);
        ChosenBootstrap(v, w, View(), Node(localId, bootstrapQueue[0]), pays, config);
        GoodBootstrap(View(), bootstrapQueue[1..], resolving, config);
        bootstrapQueue := bootstrapQueue[1..];
      } else if pays {
        UnpayDestination();
        Unpaid(v, w, View(), {});
      }
    }

    /** Turn the pool until its head may be probed, passing over 256 nodes at most. */
    method FindFront(now: Instant) returns (found: bool, ghost passed: nat)
      requires Sound() && now == clock
      modifies pool`queue
      ensures Sound() && View() == old(View())
      ensures passed == FirstOpen(old(pool.queue), old(Infos()), View().desk, now, config, 0)
      ensures Infos() == old(Infos()) && pool.queue == old(pool.queue)[passed..] + old(pool.queue)[..passed]
      ensures found <==> passed < ScanLimit(old(pool.queue))
    {
      hide CrawlActor.Sound, CrawlActor.View, CrawlActor.Infos, Approachable;
      ghost var q, infos, desk := pool.queue, Infos(), View().desk;
      var limit := ScanLimit(pool.queue);
      passed := limit;
      assert q[0..] + q[..0] == q;
      for i := 0 to limit
        invariant Sound() && View() == old(View()) && now == clock && pool.queue == q[i..] + q[..i] && Infos() == infos
        invariant FirstOpen(q, infos, desk, now, config, 0) == FirstOpen(q, infos, desk, now, config, i)
      {
        var open := IsApproachable(pool.queue[0].node, now);
        if open {
          return true, i;
        }
        Turn();
        Turned(q, i);
      }
      return false, limit;
    }

    /** What is known of the reservoir's nodes. */
    ghost function Infos(): map<Addr, Info>
      requires Sound()
      reads this, pool, pool.recent, responsive
    {
      responsive.Infos()
    }

    /** What an attempt to send a query finds. */
    ghost function Stage(): Scene
      requires Sound()
      reads this, pool, pool.recent, responsive
    {
      Scene(View(), pool.queue, Infos(), polls, responsive.ready, responsive.revisits)
    }

    /** Move the pool's head behind the others. */
    method Turn()
      requires Sound() && pool.queue != []
      modifies pool`queue
      ensures Sound() && View() == old(View()) && Infos() == old(Infos())
      ensures pool.queue == if |old(pool.queue)| > 1 then old(pool.queue)[1..] + [old(pool.queue)[0]]
                            else old(pool.queue)
    {
      hide NodePool.Valid, NodePool.RecentAt, Reservoir.Valid, Good, CrawlActor.InFlight, CrawlActor.Wallet,
           RecentProbeCapacity;
      var moved := pool.RotateFrontToBack();
    }

    method IsApproachable(node: Node, now: Instant) returns (r: bool)
      requires Sound() && now == clock
      ensures r == Approachable(node, Infos(), View().desk, now, config)
    {
      hide NodePool.Valid, NodePool.RecentAt, Good, CrawlActor.Wallet, RecentProbeCapacity, Reservoir.Valid, Members,
           IndexOk, Blocked;
      responsive.IndexKeys();
      var backing := responsive.IsBackingOff(node.addr, now);
      r := CountOf(subnets, SubnetOf(node.addr)) < config.maxPerSubnet && !backing;
    }

    /** Revisit a responsive node, if one is due: without a destination token when it is recent. */
    method ScheduleRevisit(now: Instant)
      returns (ok: bool, ghost target: Option<Node>, ghost pays: bool, ghost offered: Option<Node>)
      requires Sound() && now == clock && View().reserved == None && View().purse.held > 0
      modifies this, pool`clock, pool.recent, responsive
      ensures Sound() && ok == target.Some? && (pays <==> ok && target.value.addr !in old(View()).live)
      ensures if ok then Queried(old(View()), View(), target.value, Revisit, pays, {}, config)
              else Refused(old(View()), View(), {})
      ensures Revisits(old(Stage()), Stage(), Attempt(target, Revisit, pays, None, offered), old(polls), Me(), config)
      ensures InfosAfter(old(Infos()), Infos(), target, now)
    {
      hide CrawlActor.Sound, CrawlActor.View, CrawlActor.Infos, Good, Chosen, Queried, Refused, Picks, Revisitable,
           InfosAfter, OnlyExpiredGone, CanSend, CanPay;
      ghost var v, s := View(), Stage();
      Viewed();
      var node := PickRevisit(now);
      Viewed();
      ghost var left := Infos();
      PickedFree(v, View(), node);
      offered := node;
      assert v.live - {} == v.live;
      if node.None? {
        InfosSame(left, now);
        InfosGone(s.infos, left, left, None, now);
        return false, None, false, None;
      }
      ChosenKeeps(v, View(), {});
      StillSendable(s.infos, left, node.value, s.view.desk, now, Me(), config);
      ok := ProbeAgain(node.value, now, v);
      target, pays := if ok then node else None, ok && node.value.addr !in v.live;
      InfosGone(s.infos, left, Infos(), target, now);
    }

    method ProbeAgain(node: Node, now: Instant, ghost v: Snapshot) returns (ok: bool)
      requires Sound() && now == clock && Chosen(v, View(), false, {}) && View().purse.held > 0 && View().live == v.live
      requires node.addr in View().index && ReservedFor(View(), node.addr)
      modifies this, pool`clock, pool.recent, responsive
      ensures Sound()
      ensures if ok then Queried(v, View(), node, Revisit, node.addr !in v.live, {}, config) else Refused(v, View(), {})
      ensures InfosAfter(old(Infos()), Infos(), if ok then Some(node) else None, now)
      ensures var can := (node.addr in v.live || CanPay(v)) && CanSend(node, old(Infos()), v.desk, now, Me(), config);
        (ok <==> can && room(old(polls))) && polls == old(polls) + if can then 1 else 0
    {
      hide CrawlActor.Sound, CrawlActor.View, CrawlActor.Infos, Good, Chosen, Pays, Queried, Refused, HasRoom, Probing,
           MayProbe, CanSend, CanPay, ProbedInfo, InfosAfter;
      InfosSame(Infos(), now);
      InfosProbed(Infos(), node, now);
      var recent := IsRecent(node.addr, now);
      ghost var w := View();
      if !recent {
        var paid := PayDestination(now);
        PaidFor(v, w, View(), paid, {});
        if !paid {
          ChosenRefused(v, View(), {});
          PutBack(node.addr, now);
          return false;
        }
      }
      ChosenKept(v, View(), !recent, {});
      MayRevisit(View(), node, !recent, config);
      Viewed();
      ghost var x := View();
      ok := Probe(node, Revisit, now, !recent);
      if ok {
        ChosenQueried(v, x, node, Revisit, !recent, {}, config);
      } else {
        Viewed();
        GiveUp(node.addr, now, !recent, v);
      }
    }

    /** A node that could not be probed goes back into the schedules, and its token into the bucket. */
    method GiveUp(addr: Addr, now: Instant, paid: bool, ghost v: Snapshot)
      requires Sound() && now == clock && Chosen(v, View(), paid, {}) && ReservedFor(View(), addr)
      requires paid ==> View().purse.destHeld > 0
      modifies this`destination, this`destHeld, responsive
      ensures Sound() && Refused(v, View(), {}) && Infos() == old(Infos())
    {
      hide NodePool.Valid, NodePool.RecentAt, Reservoir.Valid, Good, Chosen, Pays, Unpays, Refused, CrawlActor.InFlight,
           RecentProbeCapacity, Members;
      ghost var w := View();
      if paid {
        UnpayDestination();
        Unpaid(v, w, View(), {});
      }
      ChosenRefused(v, View(), {});
      PutBack(addr, now);
    }

    method IsRecent(addr: Addr, now: Instant) returns (r: bool)
      requires Sound() && now == clock
      modifies pool.recent
      ensures Sound() && View() == old(View()) && (r <==> addr in View().live) && Infos() == old(Infos())
    {
      hide NodePool.Valid, NodePool.RecentAt, Reservoir.Valid, Good, CrawlActor.InFlight, CrawlActor.Wallet,
           RecentProbeCapacity;
      r := pool.ContainsRecent(addr, now);
    }

    /** Ask the reservoir for a node to revisit. */
    method PickRevisit(now: Instant) returns (node: Option<Node>)
      requires Sound() && now == clock && View().reserved == None
      modifies responsive
      ensures Sound() && Picks(old(View()), View(), node) && OnlyExpiredGone(old(Infos()), Infos(), now)
      ensures node.Some? ==> Revisitable(old(Infos()), node.value, responsive.revisitInterval, now)
      ensures node.None? ==> (responsive.ready == [] && forall k :: k in responsive.revisits ==> k.at > now)
                             || |Infos()| + 256 == |old(Infos())|
    {
      hide NodePool.Valid, NodePool.RecentAt, Reservoir.Valid, Good, CrawlActor.InFlight, CrawlActor.Wallet,
           RecentProbeCapacity, Members, IndexOk, OnlyExpiredGone, FirstDue;
      ghost var v := View();
      responsive.IndexKeys();
      ghost var members := Members(responsive.slots, responsive.index);
      ghost var promoted, dropped;
      node, promoted, dropped := responsive.NextRevisit(now);
      responsive.IndexKeys();
      GoneKeys(members, Members(responsive.slots, responsive.index), now);
      if node.Some? {
        PickedOf(members, Members(responsive.slots, responsive.index), node.value, responsive.revisitInterval, now);
      }
      GoodFewer(v, responsive.index, responsive.reserved, v.live, config);
    }

    /** Put a node that was not probed back into the schedules. */
    method PutBack(addr: Addr, now: Instant)
      requires Sound() && now == clock && ReservedFor(View(), addr)
      modifies responsive
      ensures Sound() && View() == old(View()).(reserved := None) && Infos() == old(Infos())
    {
      hide NodePool.Valid, NodePool.RecentAt, Reservoir.Valid, Good, CrawlActor.InFlight, CrawlActor.Wallet,
           RecentProbeCapacity, Members, IndexOk;
      ghost var v := View();
      responsive.DeferRevisit(addr, now + SCHEDULE_INTERVAL, now);
      GoodFewer(v, v.index, None, v.live, config);
    }

    method PayDestination(now: Instant) returns (ok: bool)
      requires Sound() && now == clock
      modifies this`destination, this`destHeld
      ensures Sound() && Pays(old(View()), View(), ok) && Infos() == old(Infos())
    {
      hide NodePool.Valid, NodePool.RecentAt, Reservoir.Valid, Good, CrawlActor.InFlight, RecentProbeCapacity,
           TakeExact;
      GoodPay(View(), config);
      var taken := TakeExact(destination, 1, now);
      destination, ok := taken.0, taken.1;
      destHeld := destHeld + (if ok then 1 else 0);
    }

    method UnpayDestination()
      requires Sound() && Wallet().destHeld > 0
      modifies this`destination, this`destHeld
      ensures Sound() && Unpays(old(View()), View()) && Infos() == old(Infos())
    {
      hide NodePool.Valid, NodePool.RecentAt, Reservoir.Valid, Good, CrawlActor.InFlight, RecentProbeCapacity, Refund,
           Level;
      GoodUnpay(View(), config);
      destination, destHeld := Refund(destination, 1), destHeld - 1;
    }

    /** The request has left: mark its endpoint and count it. */
    method Settle(node: Node, purpose: Purpose, now: Instant, ghost pays: bool, ghost v: Snapshot)
      requires PoolOk() && ReservoirOk() && now == clock && purpose != New
      requires Good(v, config) && MayProbe(v, node, pays, config) && HasRoom(v.desk, node, config)
      requires View() == v.(desk := Sent(v.desk, node, purpose, now, config), reserved := None)
      modifies this`newQueries, this`revisitQueries, this`bootstrapQueries, this`held, this`destHeld, this`probed
      modifies this`paid, this`evicted, pool`clock, pool.recent
      ensures Sound() && View() == Probing(v, node, purpose, pays, config)
    {
      hide NodePool.Valid, NodePool.RecentAt, Reservoir.Valid, Good, RecentProbeCapacity, Sent, Spent, HasRoom,
           MayProbe, Ttl, CrawlActor.InFlight, CrawlActor.Wallet;
      GoodProbe(v, node, purpose, pays, config);
      Remember(node.addr, now, pays);
      Count(purpose);
    }

    method Count(purpose: Purpose)
      modifies this`newQueries, this`revisitQueries, this`bootstrapQueries
      ensures newQueries == old(newQueries) + (if purpose == New then 1 else 0)
      ensures revisitQueries == old(revisitQueries) + (if purpose == Revisit then 1 else 0)
      ensures bootstrapQueries == old(bootstrapQueries) + (if purpose == Bootstrap then 1 else 0)
    {
      match purpose {
        case New => newQueries := newQueries + 1;
        case Revisit => revisitQueries := revisitQueries + 1;
        case Bootstrap => bootstrapQueries := bootstrapQueries + 1;
      }
    }

    /** Mark the endpoint of a request just sent as recently probed. No recent endpoint makes room for it. */
    method Remember(addr: Addr, now: Instant, ghost pays: bool)
      requires PoolOk() && now == clock && Wallet().held > 0 && (pays ==> Wallet().destHeld > 0)
      requires addr in pool.RecentAt(now) || |pool.RecentAt(now)| < RecentProbeCapacity(config)
      modifies this`held, this`destHeld, this`probed, this`paid, this`evicted, pool`clock, pool.recent
      ensures PoolOk() && evicted == old(evicted) && Wallet() == Spent(old(Wallet()), addr, pays, now)
      ensures pool.RecentAt(now) == old(pool.RecentAt(now))[addr := now + Ttl(config)]
    {
      hide NodePool.Valid, NodePool.RecentAt, RecentProbeCapacity, Ttl;
      ghost var victim := pool.RecordProbe(addr, now);
      assert evicted + [] == evicted;
      evicted := evicted + Victims(victim);
      Spend(addr, now, pays);
    }
  }

  lemma GoneKeys(before: map<Addr, Info>, after: map<Addr, Info>, now: Instant)
    requires OnlyExpiredGone(before, after, now)
    ensures after.Keys <= before.Keys
  {
  }

  lemma LiveWithout(m: map<Addr, Instant>, a: Addr, now: Instant)
    ensures Live(m - {a}, now) == Live(m, now) - {a}
  {
  }

  lemma Turned(q: seq<Queued>, i: nat)
    requires i < |q|
    ensures var t := q[i..] + q[..i];
      (if |t| > 1 then t[1..] + [t[0]] else t) == q[i + 1..] + q[..i + 1]
  {
  }

  lemma PickedOf(before: map<Addr, Info>, after: map<Addr, Info>, node: Node, interval: nat, now: Instant)
    requires OnlyExpiredGone(before, after, now) && Revisitable(after, node, interval, now)
    ensures Revisitable(before, node, interval, now)
  {
  }

  /** A node under the identity it gave, if it gave one. */
  function Named(node: Node, id: Option<NodeId>): (r: Node)
    ensures r.addr == node.addr
  {
    if id.Some? then node.(id := id.value) else node
  }

  /** A node that has just answered is known by its identity, and no longer backs off. */
  ghost predicate Enrolled(infos: map<Addr, Info>, node: Node, now: Instant) {
    && node.addr in infos && infos[node.addr].node == node && infos[node.addr].lastSuccessAt == now
    && infos[node.addr].failures == 0 && infos[node.addr].blockedUntil.None?
  }

  lemma CapacityPositive(c: Config)
    ensures RecentProbeCapacity(c) > 0
  {
  }

  lemma LiveLater(m: map<Addr, Instant>, clock: Instant, now: Instant)
    requires clock <= now
    ensures Live(Live(m, clock), now) == Live(m, now)
  {
  }

  lemma NothingLive(entries: map<Addr, Probe>, now: Instant)
    requires entries == map[]
    ensures Live(Deadlines(entries), now) == map[]
  {
  }
}
