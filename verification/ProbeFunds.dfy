/** The books of the crawler's probes: tokens taken but not yet used, when each endpoint was last probed and last
    paid for, and why no probe ever finds the memory of recent probes full. */
module ProbeFunds {
  import opened Common
  import opened Nodes
  import opened Budgets
  import opened RecentProbing
  import opened ProbeWindows

  /** The two buckets, the tokens in hand from each, and the history they are weighed against. */
  datatype Purse = Purse(query: Bucket, held: nat, destination: Bucket, destHeld: nat, probed: map<Addr, Instant>,
                         paid: map<Addr, Instant>)

  function Ttl(c: Config): nat {
    c.recentTtlSecs * SECONDS
  }

  ghost predicate QueryFunded(p: Purse, clock: Instant, c: Config) {
    Metered(p.probed, p.query, p.held, clock, c.burst as real, c.maxRate as real)
  }

  ghost predicate DestinationFunded(p: Purse, clock: Instant, c: Config) {
    Metered(p.paid, p.destination, p.destHeld, clock, DestinationBurst(c) as real, DestinationRate(c))
  }

  /** Without bootstrap, only known endpoints are probed for free. */
  ghost predicate KnownFunded(known: set<Addr>, p: Purse, clock: Instant, c: Config) {
    !BootstrapEnabled(c) ==> Resident(known, p.probed, p.paid, clock, c.responsiveCapacity + c.maxInFlight)
  }

  ghost predicate LiveFunded(live: map<Addr, Instant>, p: Purse, clock: Instant, c: Config) {
    Backed(live, p.probed, Ttl(c)) && forall a :: a in live ==> live[a] > clock
  }

  ghost predicate Funded(live: map<Addr, Instant>, known: set<Addr>, p: Purse, clock: Instant, c: Config) {
    && c.recentTtlSecs > 0
    && QueryFunded(p, clock, c) && DestinationFunded(p, clock, c) && KnownFunded(known, p, clock, c)
    && LiveFunded(live, p, clock, c)
  }

  function StartPurse(c: Config, now: Instant): Purse {
    Purse(NewBucket(c.maxRate, c.burst, false, false, now), 0,
          NewBucket(c.destinationsPerMinute, AtLeastOne(CeilDiv(c.destinationsPerMinute, 60)), true, false, now), 0,
          map[], map[])
  }

  lemma FundedStart(c: Config, now: Instant)
    requires Resolved(c)
    ensures Funded(map[], {}, StartPurse(c, now), now, c)
  {
    var p := StartPurse(c, now);
    MeterStart(p.query, now, c.burst as real, c.maxRate as real);
    MeterStart(p.destination, now, DestinationBurst(c) as real, DestinationRate(c));
    ResidentStart(now, c.responsiveCapacity + c.maxInFlight);
  }

  /** Waiting, with no token in hand. */
  lemma FundedAdvance(live: map<Addr, Instant>, after: map<Addr, Instant>, known: set<Addr>, p: Purse, clock: Instant,
                      now: Instant, c: Config)
    requires Funded(live, known, p, clock, c) && clock <= now && p.held == p.destHeld == 0
    requires after == Live(live, now) && |known| <= c.responsiveCapacity + c.maxInFlight
    ensures Funded(after, known, p, now, c)
  {
    hide Metered, Resident, DestinationBurst, DestinationRate;
    MeterStamps(p.probed, p.query, p.held, clock, c.burst as real, c.maxRate as real);
    MeterAdvance(p.probed, p.query, clock, now, c.burst as real, c.maxRate as real);
    MeterAdvance(p.paid, p.destination, clock, now, DestinationBurst(c) as real, DestinationRate(c));
    if !BootstrapEnabled(c) {
      ResidentAdvance(known, p.probed, p.paid, clock, now, c.responsiveCapacity + c.maxInFlight);
    }
  }

  lemma MeterStamps(stamps: map<Addr, Instant>, b: Bucket, held: nat, clock: Instant, full: real, rate: real)
    requires Metered(stamps, b, held, clock, full, rate)
    ensures forall a :: a in stamps ==> stamps[a] <= clock
  {
  }

  /** Forgetting endpoints. */
  lemma FundedFewer(live: map<Addr, Instant>, after: map<Addr, Instant>, known: set<Addr>, fewer: set<Addr>, p: Purse,
                    clock: Instant, c: Config)
    requires Funded(live, known, p, clock, c) && fewer <= known
    requires forall a :: a in after ==> a in live && after[a] == live[a]
    ensures Funded(after, fewer, p, clock, c)
  {
    hide Metered, Resident;
    if !BootstrapEnabled(c) {
      ResidentFewer(known, fewer, p.probed, p.paid, clock, c.responsiveCapacity + c.maxInFlight);
    }
  }

  /** A change of the query bucket that creates no tokens. */
  lemma FundedQuery(live: map<Addr, Instant>, known: set<Addr>, p: Purse, clock: Instant, c: Config, after: Bucket,
                    held: nat)
    requires Funded(live, known, p, clock, c) && Within(after, clock, c.burst as real, c.maxRate as real)
    requires Level(after, clock) + held as real <= Level(p.query, clock) + p.held as real
    ensures Funded(live, known, p.(query := after, held := held), clock, c)
  {
    hide Metered, Resident, Level, Within, DestinationFunded;
    MeterMove(p.probed, p.query, p.held, clock, c.burst as real, c.maxRate as real, after, held);
    hide LiveFunded;
    assert DestinationFunded(p.(query := after, held := held), clock, c) == DestinationFunded(p, clock, c) by {
      DestinationApart(p, after, held, clock, c);
    }
    LiveApart(live, p, after, held, clock, c);
  }

  lemma DestinationApart(p: Purse, after: Bucket, held: nat, clock: Instant, c: Config)
    ensures DestinationFunded(p.(query := after, held := held), clock, c) == DestinationFunded(p, clock, c)
  {
  }

  lemma LiveApart(live: map<Addr, Instant>, p: Purse, after: Bucket, held: nat, clock: Instant, c: Config)
    ensures LiveFunded(live, p.(query := after, held := held), clock, c) == LiveFunded(live, p, clock, c)
    ensures LiveFunded(live, p.(destination := after, destHeld := held), clock, c) == LiveFunded(live, p, clock, c)
  {
  }

  /** A change of the destination bucket that creates no tokens. */
  lemma FundedDestination(live: map<Addr, Instant>, known: set<Addr>, p: Purse, clock: Instant, c: Config,
                          after: Bucket, held: nat)
    requires Funded(live, known, p, clock, c) && Within(after, clock, DestinationBurst(c) as real, DestinationRate(c))
    requires Level(after, clock) + held as real <= Level(p.destination, clock) + p.destHeld as real
    ensures Funded(live, known, p.(destination := after, destHeld := held), clock, c)
  {
    hide Metered, Resident, Level, Within, LiveFunded, DestinationBurst, DestinationRate;
    MeterMove(p.paid, p.destination, p.destHeld, clock, DestinationBurst(c) as real, DestinationRate(c), after, held);
    LiveApart(live, p, after, held, clock, c);
  }

  // ---------- the crawler's operations on its buckets ----------

  /** A rate change within the limit; a take; a refund of what is in hand. */
  lemma FundedRate(live: map<Addr, Instant>, known: set<Addr>, p: Purse, clock: Instant, c: Config, rate: nat)
    requires Funded(live, known, p, clock, c) && rate <= c.maxRate
    ensures Funded(live, known, p.(query := SetRate(p.query, rate, clock)), clock, c)
  {
    assert p.query.Valid() && p.query.lastRefill <= clock && p.query.capacity == c.burst as real;
    SetRateLevel(p.query, rate, clock);
    LevelBounds(p.query, clock);
    RefilledBy(p.query, clock);
    assert SetRate(p.query, rate, clock).lastRefill <= clock;
    hide Funded, Level, SetRate;
    FundedQuery(live, known, p, clock, c, SetRate(p.query, rate, clock), p.held);
    assert p.(query := SetRate(p.query, rate, clock), held := p.held) == p.(query := SetRate(p.query, rate, clock));
  }

  lemma RefilledBy(b: Bucket, now: Instant)
    requires b.Valid() && b.lastRefill <= now
    ensures Refill(b, now).lastRefill <= now
  {
  }

  lemma FundedTake(live: map<Addr, Instant>, known: set<Addr>, p: Purse, clock: Instant, c: Config, max: nat)
    requires Funded(live, known, p, clock, c)
    ensures var (after, taken) := TakeUpTo(p.query, max, clock);
      && Funded(live, known, p.(query := after, held := p.held + taken), clock, c)
      && Level(after, clock) == Level(p.query, clock) - taken as real
  {
    assert p.query.Valid() && p.query.lastRefill <= clock;
    TakeUpToLevel(p.query, max, clock);
    RefilledBy(p.query, clock);
    var (after, taken) := TakeUpTo(p.query, max, clock);
    assert after.lastRefill <= clock && Within(after, clock, c.burst as real, c.maxRate as real);
    hide Funded, Level, Within, TakeUpTo;
    FundedQuery(live, known, p, clock, c, after, p.held + taken);
  }

  /** Giving back tokens in hand; none is lost to the bucket's capacity. */
  lemma FundedRefund(live: map<Addr, Instant>, known: set<Addr>, p: Purse, clock: Instant, c: Config, count: nat)
    requires Funded(live, known, p, clock, c) && count <= p.held
    ensures Funded(live, known, p.(query := Refund(p.query, count), held := p.held - count), clock, c)
    ensures Level(Refund(p.query, count), clock) == Level(p.query, clock) + count as real
  {
    assert p.query.Valid() && p.query.lastRefill <= clock;
    RefundLevel(p.query, count, clock);
    InHand(p.probed, p.query, p.held, clock, c.burst as real, c.maxRate as real);
    hide Funded, Level;
    FundedQuery(live, known, p, clock, c, Refund(p.query, count), p.held - count);
  }

  /** The tokens in hand would fit into the bucket. */
  lemma InHand(stamps: map<Addr, Instant>, b: Bucket, held: nat, clock: Instant, full: real, rate: real)
    requires Metered(stamps, b, held, clock, full, rate)
    ensures Level(b, clock) + held as real <= full && b.capacity == full && Within(b, clock, full, rate)
  {
    assert Covered(stamps, Level(b, clock), held, clock, full, rate, clock);
    EarnedSplit(rate, clock, clock, clock);
  }

  lemma FundedPay(live: map<Addr, Instant>, known: set<Addr>, p: Purse, clock: Instant, c: Config)
    requires Funded(live, known, p, clock, c)
    ensures var (after, ok) := TakeExact(p.destination, 1, clock);
      Funded(live, known, p.(destination := after, destHeld := p.destHeld + (if ok then 1 else 0)), clock, c)
  {
    hide DestinationBurst, DestinationRate;
    assert p.destination.Valid() && p.destination.lastRefill <= clock;
    TakeExactLevel(p.destination, 1, clock);
    RefilledBy(p.destination, clock);
    var (after, ok) := TakeExact(p.destination, 1, clock);
    assert after.lastRefill <= clock && Within(after, clock, DestinationBurst(c) as real, DestinationRate(c));
    hide Funded, Level, Within, TakeExact;
    FundedDestination(live, known, p, clock, c, after, p.destHeld + (if ok then 1 else 0));
  }

  lemma FundedUnpay(live: map<Addr, Instant>, known: set<Addr>, p: Purse, clock: Instant, c: Config)
    requires Funded(live, known, p, clock, c) && p.destHeld > 0
    ensures Funded(live, known, p.(destination := Refund(p.destination, 1), destHeld := p.destHeld - 1), clock, c)
    ensures Level(Refund(p.destination, 1), clock) == Level(p.destination, clock) + 1.0
  {
    hide DestinationBurst, DestinationRate;
    assert p.destination.Valid() && p.destination.lastRefill <= clock;
    RefundLevel(p.destination, 1, clock);
    InHand(p.paid, p.destination, p.destHeld, clock, DestinationBurst(c) as real, DestinationRate(c));
    hide Funded, Level;
    FundedDestination(live, known, p, clock, c, Refund(p.destination, 1), p.destHeld - 1);
  }

  // ---------- probes ----------

  /** The purse after a probe of `a`, paid for with a destination token or not. */
  function Spent(p: Purse, a: Addr, pays: bool, clock: Instant): Purse {
    p.(held := if p.held > 0 then p.held - 1 else 0, probed := p.probed[a := clock],
       destHeld := if pays && p.destHeld > 0 then p.destHeld - 1 else p.destHeld,
       paid := if pays then p.paid[a := clock] else p.paid)
  }

  /** A probe uses one query token, and a destination token unless its endpoint is recent or known for free. */
  lemma FundedProbe(live: map<Addr, Instant>, known: set<Addr>, p: Purse, clock: Instant, c: Config, a: Addr,
                    pays: bool)
    requires Funded(live, known, p, clock, c) && p.held > 0 && (pays ==> p.destHeld > 0)
    requires pays || a in known || BootstrapEnabled(c)
    ensures Funded(live[a := clock + Ttl(c)], known + {a}, Spent(p, a, pays, clock), clock, c)
  {
    MeterSpend(p.probed, p.query, p.held, clock, c.burst as real, c.maxRate as real, a);
    hide Metered, Resident, DestinationBurst, DestinationRate;
    if pays {
      MeterSpend(p.paid, p.destination, p.destHeld, clock, DestinationBurst(c) as real, DestinationRate(c), a);
    }
    if !BootstrapEnabled(c) {
      var limit := c.responsiveCapacity + c.maxInFlight;
      if pays {
        ResidentPaid(known, p.probed, p.paid, clock, limit, a);
      } else {
        ResidentUnpaid(known, p.probed, p.paid, clock, limit, a);
        assert known + {a} == known;
      }
    }
  }

  /** With both tokens in hand, the live endpoints do not fill the memory of recent probes. */
  lemma RoomForProbe(live: map<Addr, Instant>, known: set<Addr>, p: Purse, clock: Instant, c: Config)
    requires Funded(live, known, p, clock, c) && p.held > 0 && p.destHeld > 0
    ensures |live| < RecentProbeCapacity(c)
  {
    QueryRoom(live, p.probed, p.query, p.held, clock, c);
    if !BootstrapEnabled(c) {
      ResidentRoom(live, known, p.probed, p.paid, p.destination, p.destHeld, clock, c);
    }
  }
}
