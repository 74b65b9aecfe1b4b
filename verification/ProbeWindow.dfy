/** Why the memory of recent probes is large enough: how many endpoints can be probed within any window of time
    when probes are paid for from token buckets. */
module ProbeWindows {
  import opened Common
  import opened Nodes
  import opened Budgets
  import opened RecentProbing

  // ---------- the configuration ----------

  datatype Config = Config(maxRate: nat, burst: nat, maxInFlight: nat, requestTimeout: nat, destinationsPerMinute: nat,
                           replacementsPerMinute: nat, poolCapacity: nat, recentTtlSecs: nat, responsiveCapacity: nat,
                           responsiveTtl: nat, revisitInterval: nat, lowWatermark: nat, maxPerSubnet: nat,
                           bootstrapMaxNodes: nat, floorPercent: nat)

  /** What resolving the user's options guarantees. */
  predicate Resolved(c: Config) {
    && (c.burst == 0 <==> c.maxRate == 0) && c.maxInFlight > 0 && c.requestTimeout >= SECONDS && c.poolCapacity > 0
    && c.recentTtlSecs > 0 && c.responsiveCapacity > 0 && c.maxPerSubnet > 0 && c.floorPercent <= 100
  }

  predicate BootstrapEnabled(c: Config) {
    c.bootstrapMaxNodes > 0 && c.lowWatermark > 0
  }

  function QueryWindow(c: Config): nat {
    c.maxRate * c.recentTtlSecs + c.burst
  }

  function DestinationWindow(c: Config): nat {
    CeilDiv(c.destinationsPerMinute * c.recentTtlSecs, 60) + CeilDiv(c.destinationsPerMinute, 60)
  }

  function ResidentWindow(c: Config): nat {
    DestinationWindow(c) + c.responsiveCapacity + c.maxInFlight
  }

  /** The capacity the crawler gives its memory of recent probes. */
  function RecentProbeCapacity(c: Config): nat {
    var query, resident := QueryWindow(c), ResidentWindow(c);
    AtLeastOne(if BootstrapEnabled(c) || query < resident then query else resident)
  }

  /** The capacity is the query window, and with bootstrap disabled the resident window if that is smaller; but never
      zero. */
  lemma CapacityIs(c: Config)
    ensures RecentProbeCapacity(c) == 1 || RecentProbeCapacity(c) <= QueryWindow(c)
    ensures c.bootstrapMaxNodes == 0 || c.lowWatermark == 0 ==>
      RecentProbeCapacity(c) == 1 || RecentProbeCapacity(c) <= ResidentWindow(c)
    ensures RecentProbeCapacity(c) >= 1 && (RecentProbeCapacity(c) >= QueryWindow(c)
      || ((c.bootstrapMaxNodes == 0 || c.lowWatermark == 0) && RecentProbeCapacity(c) >= ResidentWindow(c)))
  {
    hide QueryWindow, ResidentWindow;
  }

  /** Rounding half up, as for non-negative numbers. */
  function Round(x: real): int {
    (x + 0.5).Floor
  }

  lemma Fraction(x: real, f: real)
    requires x >= 0.0 && 0.0 <= f <= 1.0
    ensures 0.0 <= x * f <= x
  {
    var rest := 1.0 - f;
    assert x * rest >= 0.0;
    assert x * f == x - x * rest;
  }

  /** The lowest rate that pressure may force. */
  function FloorRate(c: Config): real {
    (c.maxRate * c.floorPercent) as real / 100.0
  }

  /** A rate lowered from `max` towards `floor` as far as `progress` says. */
  function Eased(max: real, floor: real, progress: real): real {
    max - (max - floor) * progress
  }

  /** The query rate at a given fill of the metadata queue. */
  function RateForPressure(c: Config, pressure: real): int {
    var max := c.maxRate as real;
    var floor := FloorRate(c);
    if pressure < 0.80 then c.maxRate
    else if pressure >= 0.95 then Round(floor)
    else Round(Eased(max, floor, (pressure - 0.80) / 0.15))
  }

  lemma EasedBounds(max: real, floor: real, progress: real)
    requires 0.0 <= floor <= max && 0.0 <= progress <= 1.0
    ensures floor <= Eased(max, floor, progress) <= max
  {
    Fraction(max - floor, progress);
  }

  lemma RoundOrder(x: real, y: real, n: nat)
    requires 0.0 <= x <= y <= n as real
    ensures 0 <= Round(x) <= Round(y) <= n
  {
  }

  lemma FloorShare(c: Config)
    requires c.floorPercent <= 100
    ensures 0.0 <= FloorRate(c) <= c.maxRate as real
  {
    assert c.maxRate * c.floorPercent <= c.maxRate * 100;
  }

  /** More pressure never means more queries. */
  lemma RateFalls(c: Config, low: real, high: real)
    requires c.floorPercent <= 100 && low <= high
    ensures RateForPressure(c, low) >= RateForPressure(c, high)
  {
    RateWithin(c, low);
    RateWithin(c, high);
    if 0.80 <= low && high < 0.95 {
      hide FloorRate, Round;
      FloorShare(c);
      var max, floor := c.maxRate as real, FloorRate(c);
      var x, y := (low - 0.80) / 0.15, (high - 0.80) / 0.15;
      assert x <= y;
      EasedFalls(max, floor, x, y);
      EasedBounds(max, floor, x);
      EasedBounds(max, floor, y);
      RoundOrder(Eased(max, floor, y), Eased(max, floor, x), c.maxRate);
    }
  }

  lemma EasedFalls(max: real, floor: real, x: real, y: real)
    requires floor <= max && x <= y
    ensures Eased(max, floor, y) <= Eased(max, floor, x)
  {
    var slope := max - floor;
    Steeper(slope, x, y);
    assert Eased(max, floor, x) == max - slope * x && Eased(max, floor, y) == max - slope * y;
  }

  lemma Steeper(slope: real, x: real, y: real)
    requires slope >= 0.0 && x <= y
    ensures slope * x <= slope * y
  {
    assert slope * (y - x) >= 0.0;
    assert slope * y == slope * x + slope * (y - x);
  }

  /** The full rate below a pressure of 0.80, the floor from 0.95 on, and a straight line in between, each to the
      nearest whole number. */
  lemma RateLine(c: Config, pressure: real)
    ensures pressure < 0.80 ==> RateForPressure(c, pressure) == c.maxRate
    ensures pressure >= 0.95 ==> Nearest(RateForPressure(c, pressure), (c.maxRate * c.floorPercent) as real / 100.0)
    ensures 0.80 <= pressure < 0.95 ==>
      var max, floor := c.maxRate as real, (c.maxRate * c.floorPercent) as real / 100.0;
      Nearest(RateForPressure(c, pressure), (max * (0.95 - pressure) + floor * (pressure - 0.80)) / 0.15)
  {
    var max, floor := c.maxRate as real, FloorRate(c);
    if 0.80 <= pressure < 0.95 {
      var up, down := pressure - 0.80, 0.95 - pressure;
      assert up / 0.15 + down / 0.15 == 1.0;
      Between(max, floor, up / 0.15, down / 0.15);
      assert (max * down + floor * up) / 0.15 == max * (down / 0.15) + floor * (up / 0.15);
    }
  }

  /** `n` is the whole number nearest to `x`. */
  ghost predicate Nearest(n: int, x: real) {
    -0.5 <= x - n as real < 0.5
  }

  lemma Between(max: real, floor: real, up: real, down: real)
    requires up + down == 1.0
    ensures Eased(max, floor, up) == max * down + floor * up
  {
    assert (max - floor) * up == max * up - floor * up;
    assert max * (up + down) == max * up + max * down;
  }

  /** Pressure only ever lowers the rate, down to the configured floor. */
  lemma RateWithin(c: Config, pressure: real)
    requires c.floorPercent <= 100
    ensures 0 <= Round(FloorRate(c)) <= RateForPressure(c, pressure) <= c.maxRate
  {
    hide Eased, Round, FloorRate;
    var max := c.maxRate as real;
    var floor := FloorRate(c);
    FloorShare(c);
    RoundOrder(floor, max, c.maxRate);
    RoundWhole(c.maxRate);
    if 0.80 <= pressure < 0.95 {
      var progress := (pressure - 0.80) / 0.15;
      EasedBounds(max, floor, progress);
      RoundOrder(floor, Eased(max, floor, progress), c.maxRate);
    }
  }

  lemma RoundWhole(n: nat)
    ensures Round(n as real) == n
  {
  }

  // ---------- a metered set of endpoints ----------

  /** The endpoints stamped at or after `t`. */
  ghost function Stamped(stamps: map<Addr, Instant>, t: Instant): set<Addr> {
    set a | a in stamps && stamps[a] >= t
  }

  /** What a rate earns between two times. */
  function Earned(rate: real, from: Instant, to: Instant): real {
    rate * Seconds(from, to)
  }

  lemma EarnedSplit(rate: real, a: Instant, b: Instant, c: Instant)
    requires a <= b <= c && rate >= 0.0
    ensures Earned(rate, a, c) == Earned(rate, a, b) + Earned(rate, b, c)
    ensures Earned(rate, a, b) >= 0.0 && Earned(rate, b, c) >= 0.0 && Earned(rate, a, a) == 0.0
  {
    SecondsSplit(a, b, c);
    assert rate * Seconds(a, c) == rate * Seconds(a, b) + rate * Seconds(b, c);
  }

  lemma EarnedFaster(slow: real, fast: real, from: Instant, to: Instant)
    requires slow <= fast
    ensures Earned(slow, from, to) <= Earned(fast, from, to)
  {
    assert (fast - slow) * Seconds(from, to) >= 0.0;
  }

  /** In every window up to now, the endpoints stamped, the tokens left and the tokens held for a stamp to come
      are covered by one full bucket and what the window earned. */
  ghost predicate Covered(stamps: map<Addr, Instant>, level: real, held: nat, clock: Instant, full: real, rate: real,
                          t: Instant) {
    |Stamped(stamps, t)| as real + level + held as real <= full + Earned(rate, t, clock)
  }

  ghost predicate Within(b: Bucket, clock: Instant, full: real, rate: real) {
    b.Valid() && b.lastRefill <= clock && b.capacity == full && 0.0 <= b.rate <= rate
  }

  ghost predicate Metered(stamps: map<Addr, Instant>, b: Bucket, held: nat, clock: Instant, full: real, rate: real) {
    && Within(b, clock, full, rate)
    && (forall a :: a in stamps ==> stamps[a] <= clock)
    && (forall t :: 0 <= t <= clock ==> Covered(stamps, Level(b, clock), held, clock, full, rate, t))
  }

  lemma MeterStart(b: Bucket, clock: Instant, full: real, rate: real)
    requires Within(b, clock, full, rate) && b.tokens == 0.0 && b.lastRefill == clock
    ensures Metered(map[], b, 0, clock, full, rate)
  {
    forall t | 0 <= t <= clock ensures Covered(map[], Level(b, clock), 0, clock, full, rate, t) {
      EarnedSplit(rate, t, t, clock);
      assert Stamped(map[], t) == {};
    }
  }

  /** Waiting keeps the books: what the bucket gains, the window earns. */
  lemma MeterAdvance(stamps: map<Addr, Instant>, b: Bucket, clock: Instant, now: Instant, full: real, rate: real)
    requires Metered(stamps, b, 0, clock, full, rate) && clock <= now
    ensures Metered(stamps, b, 0, now, full, rate)
  {
    hide Level, Earned, Stamped;
    LevelBounds(b, now);
    LevelGrowth(b, clock, now);
    EarnedIs(b.rate, clock, now);
    EarnedFaster(b.rate, rate, clock, now);
    forall t | 0 <= t <= now ensures Covered(stamps, Level(b, now), 0, now, full, rate, t) {
      if t <= clock {
        EarnedSplit(rate, t, clock, now);
        assert Covered(stamps, Level(b, clock), 0, clock, full, rate, t);
      } else {
        EarnedSplit(rate, t, t, now);
        NoneStamped(stamps, clock, t);
      }
    }
  }

  lemma EarnedIs(rate: real, from: Instant, to: Instant)
    ensures Earned(rate, from, to) == rate * Seconds(from, to)
  {
  }

  lemma NoneStamped(stamps: map<Addr, Instant>, clock: Instant, t: Instant)
    requires (forall a :: a in stamps ==> stamps[a] <= clock) && clock < t
    ensures Stamped(stamps, t) == {}
  {
  }

  /** Moving tokens between the bucket and the hand, or losing some, keeps the books. */
  lemma MeterMove(stamps: map<Addr, Instant>, b: Bucket, held: nat, clock: Instant, full: real, rate: real,
                  after: Bucket, heldAfter: nat)
    requires Metered(stamps, b, held, clock, full, rate) && Within(after, clock, full, rate)
    requires Level(after, clock) + heldAfter as real <= Level(b, clock) + held as real
    ensures Metered(stamps, after, heldAfter, clock, full, rate)
  {
    hide Level, Earned, Stamped, Within;
    forall t | 0 <= t <= clock ensures Covered(stamps, Level(after, clock), heldAfter, clock, full, rate, t) {
      assert Covered(stamps, Level(b, clock), held, clock, full, rate, t);
    }
  }

  lemma StampedMore(stamps: map<Addr, Instant>, a: Addr, clock: Instant, t: Instant)
    requires t <= clock
    ensures Stamped(stamps[a := clock], t) == Stamped(stamps, t) + {a}
    ensures |Stamped(stamps[a := clock], t)| <= |Stamped(stamps, t)| + 1
  {
    assert Stamped(stamps[a := clock], t) == Stamped(stamps, t) + {a};
  }

  /** A stamp uses up one held token. */
  lemma MeterSpend(stamps: map<Addr, Instant>, b: Bucket, held: nat, clock: Instant, full: real, rate: real, a: Addr)
    requires Metered(stamps, b, held, clock, full, rate) && held > 0
    ensures Metered(stamps[a := clock], b, held - 1, clock, full, rate)
  {
    hide Level, Earned, Stamped, Within;
    var after, left := stamps[a := clock], held - 1;
    forall t | 0 <= t <= clock ensures Covered(after, Level(b, clock), left, clock, full, rate, t) {
      assert Covered(stamps, Level(b, clock), held, clock, full, rate, t);
      StampedMore(stamps, a, clock, t);
    }
  }

  /** The start of the window that the live endpoints were probed in. */
  function WindowStart(clock: Instant, ttl: nat): Instant {
    if clock + 1 >= ttl then clock + 1 - ttl else 0
  }

  /** With a token in hand, the stamped endpoints of a window of `secs` seconds leave room for one more. */
  lemma MeterRoom(stamps: map<Addr, Instant>, b: Bucket, held: nat, clock: Instant, full: real, rate: real, secs: nat)
    requires Metered(stamps, b, held, clock, full, rate) && held > 0 && secs > 0
    ensures (|Stamped(stamps, WindowStart(clock, secs * SECONDS))| + 1) as real <= full + rate * secs as real
  {
    hide Level, Stamped;
    var t := WindowStart(clock, secs * SECONDS);
    assert Covered(stamps, Level(b, clock), held, clock, full, rate, t);
    LevelBounds(b, clock);
    assert Seconds(t, clock) <= secs as real;
    assert rate * (secs as real - Seconds(t, clock)) >= 0.0;
  }

  // ---------- endpoints that need no token ----------

  /** From `t` on, only the endpoints of `base` and those paid for since `t` are known or probed. */
  ghost predicate Covers(base: set<Addr>, known: set<Addr>, probed: map<Addr, Instant>, paid: map<Addr, Instant>,
                         t: Instant) {
    known <= base + Stamped(paid, t) && Stamped(probed, t) <= base + Stamped(paid, t)
  }

  /** In every window there are no more than `limit` endpoints that may be probed without paying. */
  ghost predicate Resident(known: set<Addr>, probed: map<Addr, Instant>, paid: map<Addr, Instant>, clock: Instant,
                           limit: nat) {
    forall t :: 0 <= t <= clock ==> Limited(known, probed, paid, t, limit)
  }

  ghost predicate Limited(known: set<Addr>, probed: map<Addr, Instant>, paid: map<Addr, Instant>, t: Instant,
                          limit: nat) {
    exists base :: |base| <= limit && Covers(base, known, probed, paid, t)
  }

  lemma ResidentStart(clock: Instant, limit: nat)
    ensures Resident({}, map[], map[], clock, limit)
  {
    forall t | 0 <= t <= clock ensures Limited({}, map[], map[], t, limit) {
      var none: set<Addr> := {};
      assert |none| <= limit && Covers(none, {}, map[], map[], t);
    }
  }

  lemma ResidentAdvance(known: set<Addr>, probed: map<Addr, Instant>, paid: map<Addr, Instant>, clock: Instant,
                        now: Instant, limit: nat)
    requires Resident(known, probed, paid, clock, limit) && clock <= now && |known| <= limit
    requires forall a :: a in probed ==> probed[a] <= clock
    ensures Resident(known, probed, paid, now, limit)
  {
    hide Stamped;
    forall t | 0 <= t <= now ensures Limited(known, probed, paid, t, limit) {
      if t > clock {
        NoneStamped(probed, clock, t);
        assert Covers(known, known, probed, paid, t);
      }
    }
  }

  lemma ResidentFewer(known: set<Addr>, fewer: set<Addr>, probed: map<Addr, Instant>, paid: map<Addr, Instant>,
                      clock: Instant, limit: nat)
    requires Resident(known, probed, paid, clock, limit) && fewer <= known
    ensures Resident(fewer, probed, paid, clock, limit)
  {
    hide Stamped;
    forall t | 0 <= t <= clock ensures Limited(fewer, probed, paid, t, limit) {
      assert Limited(known, probed, paid, t, limit);
      var base :| |base| <= limit && Covers(base, known, probed, paid, t);
      assert Covers(base, fewer, probed, paid, t);
    }
  }

  /** A probe that is paid for. */
  lemma ResidentPaid(known: set<Addr>, probed: map<Addr, Instant>, paid: map<Addr, Instant>, clock: Instant, limit: nat,
                     a: Addr)
    requires Resident(known, probed, paid, clock, limit)
    ensures Resident(known + {a}, probed[a := clock], paid[a := clock], clock, limit)
  {
    hide Stamped;
    var more, probes, payments := known + {a}, probed[a := clock], paid[a := clock];
    forall t | 0 <= t <= clock ensures Limited(more, probes, payments, t, limit) {
      assert Limited(known, probed, paid, t, limit);
      var base :| |base| <= limit && Covers(base, known, probed, paid, t);
      StampedMore(probed, a, clock, t);
      StampedMore(paid, a, clock, t);
      assert Covers(base, more, probes, payments, t);
    }
  }

  /** A probe of a known endpoint that is not paid for. */
  lemma ResidentUnpaid(known: set<Addr>, probed: map<Addr, Instant>, paid: map<Addr, Instant>, clock: Instant,
                       limit: nat, a: Addr)
    requires Resident(known, probed, paid, clock, limit) && a in known
    ensures Resident(known, probed[a := clock], paid, clock, limit)
  {
    hide Stamped;
    var probes := probed[a := clock];
    forall t | 0 <= t <= clock ensures Limited(known, probes, paid, t, limit) {
      assert Limited(known, probed, paid, t, limit);
      var base :| |base| <= limit && Covers(base, known, probed, paid, t);
      StampedMore(probed, a, clock, t);
      assert Covers(base, known, probes, paid, t);
    }
  }

  // ---------- the capacity is enough ----------

  /** Every live endpoint was probed, its deadline being one TTL after its last probe. */
  ghost predicate Backed(live: map<Addr, Instant>, probed: map<Addr, Instant>, ttl: nat) {
    forall a :: a in live ==> a in probed && live[a] <= probed[a] + ttl
  }

  lemma LiveStamped(live: map<Addr, Instant>, probed: map<Addr, Instant>, clock: Instant, ttl: nat)
    requires Backed(live, probed, ttl) && forall a :: a in live ==> live[a] > clock
    ensures live.Keys <= Stamped(probed, WindowStart(clock, ttl))
  {
  }

  function DestinationBurst(c: Config): nat {
    if c.destinationsPerMinute == 0 then 0 else CeilDiv(c.destinationsPerMinute, 60)
  }

  function DestinationRate(c: Config): real {
    c.destinationsPerMinute as real / 60.0
  }

  /** With a query token in hand, the live endpoints leave room in the query window. */
  lemma QueryRoom(live: map<Addr, Instant>, probed: map<Addr, Instant>, q: Bucket, held: nat, clock: Instant, c: Config)
    requires Metered(probed, q, held, clock, c.burst as real, c.maxRate as real) && held > 0 && c.recentTtlSecs > 0
    requires Backed(live, probed, c.recentTtlSecs * SECONDS) && forall a :: a in live ==> live[a] > clock
    ensures |live| + 1 <= QueryWindow(c)
  {
    hide *;
    var window := Stamped(probed, WindowStart(clock, c.recentTtlSecs * SECONDS));
    LiveStamped(live, probed, clock, c.recentTtlSecs * SECONDS);
    SubsetSize(live.Keys, window);
    MeterRoom(probed, q, held, clock, c.burst as real, c.maxRate as real, c.recentTtlSecs);
    WholeWindow(|window| + 1, c.burst, c.maxRate, c.recentTtlSecs);
    WindowTotal(c);
  }

  lemma WholeWindow(count: nat, burst: nat, rate: nat, secs: nat)
    requires count as real <= burst as real + rate as real * secs as real
    ensures count <= rate * secs + burst
  {
    assert rate as real * secs as real == (rate * secs) as real;
  }

  lemma WindowTotal(c: Config)
    ensures QueryWindow(c) == c.maxRate * c.recentTtlSecs + c.burst
  {
  }

  lemma CeilDivUp(x: nat)
    ensures x as real / 60.0 <= CeilDiv(x, 60) as real
  {
    assert x <= 60 * CeilDiv(x, 60);
  }

  lemma DestinationFits(c: Config)
    ensures DestinationBurst(c) as real + DestinationRate(c) * c.recentTtlSecs as real <= DestinationWindow(c) as real
  {
    var x := c.destinationsPerMinute * c.recentTtlSecs;
    CeilDivUp(x);
    assert DestinationRate(c) * c.recentTtlSecs as real == x as real / 60.0 by {
      assert x as real == c.destinationsPerMinute as real * c.recentTtlSecs as real;
    }
  }

  lemma UnionSize(a: set<Addr>, b: set<Addr>, u: set<Addr>)
    requires u <= a + b
    ensures |u| <= |a| + |b|
  {
    SubsetSize(u, a + b);
    assert a + b == a + (b - a);
    SubsetSize(b - a, b);
  }

  lemma LiveResident(live: map<Addr, Instant>, known: set<Addr>, probed: map<Addr, Instant>, paid: map<Addr, Instant>,
                     clock: Instant, ttl: nat, limit: nat)
    requires Resident(known, probed, paid, clock, limit) && ttl > 0
    requires Backed(live, probed, ttl) && forall a :: a in live ==> live[a] > clock
    ensures |live| <= limit + |Stamped(paid, WindowStart(clock, ttl))|
  {
    var t := WindowStart(clock, ttl);
    LiveStamped(live, probed, clock, ttl);
    assert Limited(known, probed, paid, t, limit);
    hide Stamped, Backed, Resident;
    var base :| |base| <= limit && Covers(base, known, probed, paid, t);
    UnionSize(base, Stamped(paid, t), live.Keys);
  }

  /** With a destination token in hand, the live endpoints leave room in the resident window. */
  lemma ResidentRoom(live: map<Addr, Instant>, known: set<Addr>, probed: map<Addr, Instant>, paid: map<Addr, Instant>,
                     d: Bucket, held: nat, clock: Instant, c: Config)
    requires Metered(paid, d, held, clock, DestinationBurst(c) as real, DestinationRate(c)) && held > 0
    requires c.recentTtlSecs > 0
    requires Resident(known, probed, paid, clock, c.responsiveCapacity + c.maxInFlight)
    requires Backed(live, probed, c.recentTtlSecs * SECONDS) && forall a :: a in live ==> live[a] > clock
    ensures |live| + 1 <= ResidentWindow(c)
  {
    hide Metered, Backed, Resident, Stamped, DestinationBurst, DestinationRate, DestinationWindow, WindowStart;
    LiveResident(live, known, probed, paid, clock, c.recentTtlSecs * SECONDS, c.responsiveCapacity + c.maxInFlight);
    MeterRoom(paid, d, held, clock, DestinationBurst(c) as real, DestinationRate(c), c.recentTtlSecs);
    DestinationFits(c);
  }
}
