/** The per-worker limiter of replies: a regular and a priority budget of packets and bytes, and a count for each
    source in windows of one second. */
module ReplyLimiters {
  import opened Common
  import opened Nodes
  import opened Budgets

  const WINDOW: nat := SECONDS
  const IDLE: nat := 60 * SECONDS

  // ---------- quotas ----------

  function AtLeast(x: nat, least: nat): nat {
    if x < least then least else x
  }

  /** A tenth of the total, rounded up, is kept for priority replies. */
  function ReserveQuota(total: nat): (r: nat)
    ensures r <= total && (total > 0 ==> r > 0) && total <= 10 * r < total + 10
  {
    if total == 0 then 0 else if CeilDiv(total, 10) < total then CeilDiv(total, 10) else total
  }

  /** One worker's share of a quota. */
  function SplitQuota(total: nat, workers: nat, worker: nat): nat {
    var n := AtLeast(workers, 1);
    total / n + (if worker < total % n then 1 else 0)
  }

  /** The shares of the first `n` workers together. */
  ghost function Shares(total: nat, workers: nat, n: nat): nat {
    if n == 0 then 0 else Shares(total, workers, n - 1) + SplitQuota(total, workers, n - 1)
  }

  lemma {:induction false} SharesOfFirst(total: nat, workers: nat, n: nat)
    requires workers > 0
    ensures Shares(total, workers, n) == SharesMeant(total / workers, total % workers, n)
  {
    if n == 0 {
      assert Shares(total, workers, 0) == 0;
    } else {
      SharesOfFirst(total, workers, n - 1);
      OneShare(total / workers, total % workers, n);
    }
  }

  /** Equal shares, and one more for each of the first few workers. */
  ghost function SharesMeant(share: nat, over: nat, n: nat): nat {
    n * share + (if n < over then n else over)
  }

  lemma OneShare(share: nat, over: nat, n: nat)
    requires n > 0
    ensures SharesMeant(share, over, n) == SharesMeant(share, over, n - 1) + share + (if n - 1 < over then 1 else 0)
  {
    assert n * share == (n - 1) * share + share;
  }

  /** The workers' shares add up to the total, and differ by one at most. */
  lemma SplitExact(total: nat, workers: nat)
    requires workers > 0
    ensures Shares(total, workers, workers) == total
    ensures forall v, w :: SplitQuota(total, workers, v) <= SplitQuota(total, workers, w) + 1
  {
    SharesOfFirst(total, workers, workers);
    assert total == workers * (total / workers) + total % workers;
  }

  // ---------- windows ----------

  datatype Window = Window(startedAt: Instant, lastSeen: Instant, count: nat)

  function Elapsed(from: Instant, now: Instant): nat {
    if from <= now then now - from else 0
  }

  /** The window a source is in at `now`: the current one, or a new one once a second is over. */
  function Current(w: Option<Window>, now: Instant): Window {
    if w.None? then Window(now, now, 0)
    else if Elapsed(w.value.startedAt, now) >= WINDOW then w.value.(startedAt := now, count := 0)
    else w.value
  }

  function Find(sources: map<Addr, Window>, a: Addr): Option<Window> {
    if a in sources then Some(sources[a]) else None
  }

  /** Whether a source gets a slot, and the window it has then. */
  function Slot(w: Option<Window>, now: Instant, rate: nat): (r: (Window, bool)) {
    var c := Current(w, now);
    if c.count >= rate then (c, false) else (Window(c.startedAt, now, c.count + 1), true)
  }

  /** A source gets a slot if and only if it has had fewer than its rate since its second began; a new second begins
      with the first slot after the last one is over. */
  lemma SlotIff(w: Option<Window>, now: Instant, rate: nat)
    ensures Slot(w, now, rate).1 <==>
      rate > 0 && (w.None? || now >= w.value.startedAt + WINDOW || w.value.count < rate)
    ensures var (after, ok) := Slot(w, now, rate);
      ok ==> after.lastSeen == now &&
             if w.None? || now >= w.value.startedAt + WINDOW then after.startedAt == now && after.count == 1
             else after.startedAt == w.value.startedAt && after.count == w.value.count + 1
  {
  }

  /** `kept` is what remains of `all` when sources idle for a minute may be forgotten. */
  ghost predicate Forgets(kept: map<Addr, Window>, all: map<Addr, Window>, now: Instant) {
    && (forall a :: a in kept ==> a in all && kept[a] == all[a])
    && (forall a :: a in all && a !in kept ==> all[a].lastSeen + IDLE <= now)
    && (forall a :: a in all ==> all[a].startedAt <= all[a].lastSeen <= now)
  }

  /** A source that was forgotten is served as if it had not been. */
  lemma SameSlot(kept: map<Addr, Window>, all: map<Addr, Window>, a: Addr, now: Instant, rate: nat)
    requires Forgets(kept, all, now) && rate > 0
    ensures Slot(Find(kept, a), now, rate) == Slot(Find(all, a), now, rate)
  {
  }

  lemma SlotSeen(w: Option<Window>, now: Instant, rate: nat)
    ensures Slot(w, now, rate).1 ==> Slot(w, now, rate).0.lastSeen == now
  {
  }

  lemma StartedBy(kept: map<Addr, Window>, all: map<Addr, Window>, a: Addr, now: Instant)
    requires Forgets(kept, all, now) && a in all
    ensures all[a].startedAt <= now
  {
  }

  lemma ForgetsLater(kept: map<Addr, Window>, all: map<Addr, Window>, clock: Instant, now: Instant)
    requires Forgets(kept, all, clock) && clock <= now
    ensures Forgets(kept, all, now)
  {
  }

  lemma ForgetsOne(kept: map<Addr, Window>, all: map<Addr, Window>, a: Addr, now: Instant)
    requires Forgets(kept, all, now) && a in kept && kept[a].lastSeen + IDLE <= now
    ensures Forgets(kept - {a}, all, now)
  {
  }

  lemma ForgetsSlot(kept: map<Addr, Window>, all: map<Addr, Window>, a: Addr, now: Instant, rate: nat)
    requires Forgets(kept, all, now) && rate > 0
    ensures var w := Slot(Find(all, a), now, rate).0;
      Forgets(kept[a := w], all[a := w], now)
  {
    SameSlot(kept, all, a, now, rate);
  }

  // ---------- how many replies a source gets ----------

  /** The times not before `x`. */
  ghost function CountFrom(log: seq<Instant>, x: int): nat {
    if log == [] then 0 else CountFrom(log[..|log| - 1], x) + (if log[|log| - 1] >= x then 1 else 0)
  }

  /** The times in the closed second from `t`. */
  ghost function CountIn(log: seq<Instant>, t: int): nat {
    if log == [] then 0 else CountIn(log[..|log| - 1], t) + (if t <= log[|log| - 1] <= t + WINDOW then 1 else 0)
  }

  lemma CountAppend(log: seq<Instant>, now: Instant, x: int)
    ensures CountFrom(log + [now], x) == CountFrom(log, x) + (if now >= x then 1 else 0)
    ensures CountIn(log + [now], x) == CountIn(log, x) + (if x <= now <= x + WINDOW then 1 else 0)
  {
    assert (log + [now])[..|log|] == log;
  }

  lemma {:induction false} CountBounds(log: seq<Instant>, x: int)
    ensures CountIn(log, x) <= CountFrom(log, x) <= |log|
    ensures (forall i :: 0 <= i < |log| ==> log[i] < x) ==> CountFrom(log, x) == 0
  {
    if log == [] {
    } else {
      CountBounds(log[..|log| - 1], x);
    }
  }

  lemma {:induction false} CountLater(log: seq<Instant>, x: int, y: int)
    requires x <= y
    ensures CountFrom(log, y) <= CountFrom(log, x)
  {
    if log == [] {
    } else {
      CountLater(log[..|log| - 1], x, y);
    }
  }

  lemma {:induction false} CountSplit(a: seq<Instant>, b: seq<Instant>, x: int)
    ensures CountFrom(a + b, x) == CountFrom(a, x) + CountFrom(b, x)
  {
    if b == [] {
      assert a + b == a;
    } else {
      CountSplit(a, b[..|b| - 1], x);
      assert (a + b)[..|a + b| - 1] == a + b[..|b| - 1];
    }
  }

  /** The replies before the current window. */
  ghost function Earlier(log: seq<Instant>, w: Window): seq<Instant>
    requires w.count <= |log|
  {
    log[..|log| - w.count]
  }

  /** A source's window counts its latest replies, which all lie within a second of its start; those before it are
      older, and few of them are less than a second older. */
  ghost predicate Counts(log: seq<Instant>, w: Window, rate: nat) {
    && w.count <= rate && w.count <= |log|
    && (forall i :: 0 <= i < |log| - w.count ==> log[i] < w.startedAt)
    && (forall i :: |log| - w.count <= i < |log| ==> w.startedAt <= log[i] < w.startedAt + WINDOW)
    && CountFrom(Earlier(log, w), w.startedAt - WINDOW) <= rate
  }

  /** No closed second holds more than twice the rate. */
  ghost predicate Paced(log: seq<Instant>, rate: nat) {
    forall t: int :: CountIn(log, t) <= 2 * rate
  }

  /** A reply within the current window. */
  lemma CountsMore(log: seq<Instant>, w: Window, now: Instant, rate: nat)
    requires Counts(log, w, rate) && w.startedAt <= now < w.startedAt + WINDOW && w.count < rate
    ensures Counts(log + [now], Window(w.startedAt, now, w.count + 1), rate)
    ensures CountFrom(log + [now], now - WINDOW) <= 2 * rate
  {
    var before, during := Earlier(log, w), log[|log| - w.count..];
    assert log == before + during;
    assert Earlier(log + [now], Window(w.startedAt, now, w.count + 1)) == before;
    CountSplit(before, during, now - WINDOW);
    CountBounds(during, now - WINDOW);
    CountLater(before, w.startedAt - WINDOW, now - WINDOW);
    CountAppend(log, now, now - WINDOW);
  }

  /** When a window is over, no more than its own replies are less than a second old. */
  lemma CountsOver(log: seq<Instant>, w: Window, now: Instant, rate: nat)
    requires Counts(log, w, rate) && w.startedAt + WINDOW <= now
    ensures CountFrom(log, now - WINDOW) <= rate && forall i :: 0 <= i < |log| ==> log[i] < now
  {
    var before, during := Earlier(log, w), log[|log| - w.count..];
    assert log == before + during;
    hide CountFrom;
    CountSplit(before, during, now - WINDOW);
    CountBounds(during, now - WINDOW);
    CountBounds(before, now - WINDOW);
  }

  /** A reply that starts a new window. */
  lemma CountsAnew(log: seq<Instant>, w: Window, now: Instant, rate: nat)
    requires Counts(log, w, rate) && w.startedAt + WINDOW <= now && rate > 0
    ensures Counts(log + [now], Window(now, now, 1), rate)
    ensures CountFrom(log + [now], now - WINDOW) <= 2 * rate
  {
    CountsOver(log, w, now, rate);
    assert Earlier(log + [now], Window(now, now, 1)) == log;
    CountAppend(log, now, now - WINDOW);
    hide CountFrom;
  }

  lemma PacedMore(log: seq<Instant>, now: Instant, rate: nat)
    requires Paced(log, rate) && CountFrom(log + [now], now - WINDOW) <= 2 * rate
    ensures Paced(log + [now], rate)
  {
    forall t: int ensures CountIn(log + [now], t) <= 2 * rate {
      CountAppend(log, now, t);
      if t <= now <= t + WINDOW {
        CountBounds(log + [now], t);
        CountLater(log + [now], now - WINDOW, t);
      }
    }
  }

  ghost predicate Tracked(log: seq<Instant>, w: Option<Window>, rate: nat) {
    Paced(log, rate) && if w.None? then log == [] else Counts(log, w.value, rate)
  }

  lemma CountsFirst(now: Instant, rate: nat)
    requires rate > 0
    ensures Counts([now], Window(now, now, 1), rate) && Paced([now], rate)
  {
    assert Earlier([now], Window(now, now, 1)) == [];
    forall t: int ensures CountIn([now], t) <= 2 * rate {
      CountBounds([now], t);
    }
  }

  /** A slot that is granted keeps the pace. */
  lemma TrackedSlot(log: seq<Instant>, w: Option<Window>, now: Instant, rate: nat)
    requires Tracked(log, w, rate) && rate > 0 && (w.Some? ==> w.value.startedAt <= now) && Slot(w, now, rate).1
    ensures Tracked(log + [now], Some(Slot(w, now, rate).0), rate)
  {
    hide CountFrom, Paced;
    if w.None? {
      assert log == [];
      CountsFirst(now, rate);
      assert log + [now] == [now];
    } else if w.value.startedAt + WINDOW <= now {
      CountsAnew(log, w.value, now, rate);
      hide Counts;
      PacedMore(log, now, rate);
    } else {
      CountsMore(log, w.value, now, rate);
      hide Counts;
      PacedMore(log, now, rate);
    }
  }

  // ---------- the limiter ----------

  datatype Permit = Regular | PriorityReserve | Rejected

  datatype Purses = Purses(packets: Bucket, bytes: Bucket)
  {
    predicate Valid() {
      packets.Valid() && bytes.Valid()
    }
  }

  /** What two buckets hold at `now`. */
  ghost function Levels(p: Purses, now: Instant): (real, real) {
    (Level(p.packets, now), Level(p.bytes, now))
  }

  /** The same rates and capacities. */
  ghost predicate SameKind(p: Purses, r: Purses) {
    && r.packets.rate == p.packets.rate && r.bytes.rate == p.bytes.rate
    && r.packets.capacity == p.packets.capacity && r.bytes.capacity == p.bytes.capacity
  }

  /** No bucket was refilled after `now`. */
  ghost predicate Refilled(p: Purses, now: Instant) {
    p.packets.lastRefill <= now && p.bytes.lastRefill <= now
  }

  lemma TakenBy(b: Bucket, count: nat, now: Instant)
    requires b.Valid()
    ensures b.lastRefill <= now ==> TakeExact(b, count, now).0.lastRefill <= now
  {
  }

  /** A packet and its bytes can be paid for. */
  ghost predicate Affords(p: Purses, len: nat, now: Instant) {
    && p.packets.rate > 0.0 && 1.0 <= Level(p.packets, now)
    && (len == 0 || (p.bytes.rate > 0.0 && len as real <= Level(p.bytes, now)))
  }

  /** Take a packet and its bytes, or neither. */
  method TakeBudget(p: Purses, len: nat, now: Instant) returns (r: Purses, ok: bool)
    requires p.Valid()
    ensures r.Valid() && (ok <==> Affords(p, len, now))
    ensures Levels(r, now) == if ok then (Level(p.packets, now) - 1.0, Level(p.bytes, now) - len as real)
                              else Levels(p, now)
    ensures SameKind(p, r) && (Refilled(p, now) ==> Refilled(r, now))
  {
    TakeExactLevel(p.packets, 1, now);
    TakeExactLevel(p.bytes, len, now);
    LevelBounds(p.packets, now);
    TakenBy(p.packets, 1, now);
    TakenBy(p.bytes, len, now);
    hide Level, TakeExact;
    var packet := TakeExact(p.packets, 1, now);
    if !packet.1 {
      return Purses(packet.0, p.bytes), false;
    }
    var bytes := TakeExact(p.bytes, len, now);
    if !bytes.1 {
      RefundLevel(packet.0, 1, now);
      return Purses(Refund(packet.0, 1), bytes.0), false;
    }
    return Purses(packet.0, bytes.0), true;
  }

  method RefundBudget(p: Purses, len: nat, ghost now: Instant) returns (r: Purses)
    requires p.Valid() && Level(p.packets, now) + 1.0 <= p.packets.capacity
    requires Level(p.bytes, now) + len as real <= p.bytes.capacity
    ensures r.Valid() && Levels(r, now) == (Level(p.packets, now) + 1.0, Level(p.bytes, now) + len as real)
    ensures SameKind(p, r) && (Refilled(p, now) ==> Refilled(r, now))
  {
    RefundLevel(p.packets, 1, now);
    RefundLevel(p.bytes, len, now);
    hide Level;
    r := Purses(Refund(p.packets, 1), Refund(p.bytes, len));
  }

  /** What a limiter that forgets nothing decides. */
  ghost function Decision(regular: Purses, priority: Purses, w: Option<Window>, len: nat, isPriority: bool,
                          now: Instant, rate: nat): Permit {
    var slot := rate > 0 && Slot(w, now, rate).1;
    if Affords(regular, len, now) then if slot then Regular else Rejected
    else if isPriority && Affords(priority, len, now) && slot then PriorityReserve
    else Rejected
  }

  /** What buckets hold after a reply was or was not paid for from them. */
  ghost predicate Charged(before: Purses, after: Purses, len: nat, now: Instant, pays: bool) {
    && after.Valid() && SameKind(before, after) && (Refilled(before, now) ==> Refilled(after, now))
    && Levels(after, now) ==
         if pays then (Level(before.packets, now) - 1.0, Level(before.bytes, now) - len as real)
         else Levels(before, now)
  }

  ghost function LogOf(logs: map<Addr, seq<Instant>>, a: Addr): seq<Instant> {
    if a in logs then logs[a] else []
  }

  ghost predicate AllTracked(logs: map<Addr, seq<Instant>>, all: map<Addr, Window>, rate: nat) {
    forall a :: Tracked(LogOf(logs, a), Find(all, a), rate)
  }

  lemma AllTrackedSlot(logs: map<Addr, seq<Instant>>, all: map<Addr, Window>, a: Addr, now: Instant, rate: nat)
    requires AllTracked(logs, all, rate) && rate > 0 && Slot(Find(all, a), now, rate).1
    requires a in all ==> all[a].startedAt <= now
    ensures AllTracked(logs[a := LogOf(logs, a) + [now]], all[a := Slot(Find(all, a), now, rate).0], rate)
  {
    TrackedSlot(LogOf(logs, a), Find(all, a), now, rate);
    hide Tracked, Slot;
    var more, after := logs[a := LogOf(logs, a) + [now]], all[a := Slot(Find(all, a), now, rate).0];
    forall b ensures Tracked(LogOf(more, b), Find(after, b), rate) {
      assert Tracked(LogOf(logs, b), Find(all, b), rate);
    }
  }

  lemma TrackedGrant(logs: map<Addr, seq<Instant>>, kept: map<Addr, Window>, all: map<Addr, Window>, a: Addr,
                     now: Instant, rate: nat)
    requires AllTracked(logs, all, rate) && Forgets(kept, all, now) && rate > 0 && Slot(Find(all, a), now, rate).1
    ensures AllTracked(logs[a := LogOf(logs, a) + [now]], all[a := Slot(Find(all, a), now, rate).0], rate)
  {
    if a in all {
      StartedBy(kept, all, a, now);
    }
    hide AllTracked, Forgets, Slot, LogOf;
    AllTrackedSlot(logs, all, a, now, rate);
  }

  datatype Idle = Idle(deadline: Instant, addr: Addr)

  /** The list of deadlines is in order, and has the end of every source's idle minute. */
  ghost predicate Listed(sources: map<Addr, Window>, expiry: seq<Idle>, clock: Instant) {
    && (forall i, j :: 0 <= i < j < |expiry| ==> expiry[i].deadline <= expiry[j].deadline)
    && (forall i :: 0 <= i < |expiry| ==> expiry[i].deadline <= clock + IDLE)
    && (forall a :: a in sources ==> Idle(sources[a].lastSeen + IDLE, a) in expiry)
  }

  lemma ListedLater(sources: map<Addr, Window>, expiry: seq<Idle>, clock: Instant, now: Instant)
    requires Listed(sources, expiry, clock) && clock <= now
    ensures Listed(sources, expiry, now)
  {
  }

  lemma ListedSlot(sources: map<Addr, Window>, expiry: seq<Idle>, a: Addr, w: Window, now: Instant)
    requires Listed(sources, expiry, now) && w.lastSeen == now
    ensures Listed(sources[a := w], expiry + [Idle(now + IDLE, a)], now)
  {
    var more, longer := sources[a := w], expiry + [Idle(now + IDLE, a)];
    assert longer[|expiry|] == Idle(now + IDLE, a);
    forall b | b in more ensures Idle(more[b].lastSeen + IDLE, b) in longer {
      if b != a { assert Idle(sources[b].lastSeen + IDLE, b) in expiry; }
    }
  }

  /** The first deadline goes, and with it its source if nothing was seen of it since. */
  lemma ListedPopped(sources: map<Addr, Window>, expiry: seq<Idle>, now: Instant)
    requires Listed(sources, expiry, now) && expiry != [] && expiry[0].deadline <= now
    ensures var a := expiry[0].addr;
      Listed(if a in sources && sources[a].lastSeen + IDLE <= now then sources - {a} else sources, expiry[1..], now)
  {
    var a := expiry[0].addr;
    var rest := if a in sources && sources[a].lastSeen + IDLE <= now then sources - {a} else sources;
    forall b | b in rest ensures Idle(rest[b].lastSeen + IDLE, b) in expiry[1..] {
      var i :| 0 <= i < |expiry| && expiry[i] == Idle(rest[b].lastSeen + IDLE, b);
      assert expiry[1..][i - 1] == expiry[i];
    }
  }

  lemma NoneIdle(sources: map<Addr, Window>, expiry: seq<Idle>, now: Instant)
    requires Listed(sources, expiry, now) && (expiry != [] ==> expiry[0].deadline > now)
    ensures forall a :: a in sources ==> sources[a].lastSeen + IDLE > now
  {
    forall a | a in sources ensures sources[a].lastSeen + IDLE > now {
      var i :| 0 <= i < |expiry| && expiry[i] == Idle(sources[a].lastSeen + IDLE, a);
    }
  }

  function StillActive(sources: map<Addr, Window>, now: Instant): map<Addr, Window> {
    map a | a in sources && sources[a].lastSeen + IDLE > now :: sources[a]
  }

  // ---------- a limiter that forgets nothing ----------

  /** A question to the limiter: whether a reply of some length may go to a source. */
  datatype Query = Query(addr: Addr, len: nat, isPriority: bool, at: Instant)

  /** A limiter that forgets no source and brings its buckets up to date whenever it is asked. */
  datatype Ideal = Ideal(regular: Purses, priority: Purses, windows: map<Addr, Window>)

  ghost function Drawn(b: Bucket, count: nat, now: Instant): Bucket {
    b.(tokens := Level(b, now) - count as real, lastRefill := now)
  }

  ghost function PaidFrom(p: Purses, len: nat, now: Instant, pays: bool): Purses {
    Purses(Drawn(p.packets, if pays then 1 else 0, now), Drawn(p.bytes, if pays then len else 0, now))
  }

  ghost function Verdict(s: Ideal, q: Query, rate: nat): Permit {
    Decision(s.regular, s.priority, Find(s.windows, q.addr), q.len, q.isPriority, q.at, rate)
  }

  ghost function Served(s: Ideal, q: Query, rate: nat): Ideal {
    var permit := Verdict(s, q, rate);
    Ideal(PaidFrom(s.regular, q.len, q.at, permit == Regular),
        PaidFrom(s.priority, q.len, q.at, permit == PriorityReserve),
          if permit != Rejected then s.windows[q.addr := Slot(Find(s.windows, q.addr), q.at, rate).0] else s.windows)
  }

  /** The ideal limiter after a run of questions, and what it answered. */
  ghost function ServedAll(start: Ideal, queries: seq<Query>, rate: nat): (Ideal, seq<Permit>) {
    if queries == [] then (start, [])
    else
      var (s, answers) := ServedAll(start, queries[..|queries| - 1], rate);
      var q := queries[|queries| - 1];
      (Served(s, q, rate), answers + [Verdict(s, q, rate)])
  }

  lemma ServedOne(start: Ideal, queries: seq<Query>, q: Query, rate: nat)
    ensures var (s, answers) := ServedAll(start, queries, rate);
      ServedAll(start, queries + [q], rate) == (Served(s, q, rate), answers + [Verdict(s, q, rate)])
  {
    assert (queries + [q])[..|queries|] == queries;
    hide Served, Verdict;
  }

  /** Two sets of buckets hold the same at `now`, and so at any later time. */
  ghost predicate SameStock(p: Purses, r: Purses, now: Instant) {
    && p.Valid() && r.Valid() && SameKind(p, r) && Refilled(p, now) && Refilled(r, now)
    && Levels(p, now) == Levels(r, now)
  }

  lemma LevelLater(b: Bucket, t: Instant, now: Instant)
    requires b.Valid() && b.lastRefill <= t <= now
    ensures Level(b, now) == Min(Level(b, t) + b.rate * Seconds(t, now), b.capacity)
  {
    SecondsSplit(b.lastRefill, t, now);
    assert b.rate * Seconds(b.lastRefill, now) == b.rate * Seconds(b.lastRefill, t) + b.rate * Seconds(t, now);
    assert b.rate * Seconds(t, now) >= 0.0;
  }

  lemma SameLater(p: Purses, r: Purses, t: Instant, now: Instant)
    requires SameStock(p, r, t) && t <= now
    ensures SameStock(p, r, now)
  {
    hide Level;
    SameLevelLater(p.packets, r.packets, t, now);
    SameLevelLater(p.bytes, r.bytes, t, now);
  }

  lemma SameLevelLater(b: Bucket, c: Bucket, t: Instant, now: Instant)
    requires b.Valid() && c.Valid() && b.rate == c.rate && b.capacity == c.capacity && Level(b, t) == Level(c, t)
    requires b.lastRefill <= t <= now && c.lastRefill <= t
    ensures Level(b, now) == Level(c, now)
  {
    hide Level, Seconds;
    LevelLater(b, t, now);
    LevelLater(c, t, now);
  }

  lemma DrawnLevel(b: Bucket, count: nat, now: Instant)
    requires b.Valid() && count as real <= Level(b, now)
    ensures Drawn(b, count, now).Valid() && Level(Drawn(b, count, now), now) == Level(b, now) - count as real
  {
    LevelBounds(b, now);
  }

  lemma SameCharged(p: Purses, r: Purses, after: Purses, len: nat, now: Instant, pays: bool)
    requires SameStock(p, r, now) && Charged(p, after, len, now, pays) && (pays ==> Affords(p, len, now))
    ensures SameStock(after, PaidFrom(r, len, now, pays), now)
  {
    LevelBounds(r.packets, now);
    LevelBounds(r.bytes, now);
    DrawnLevel(r.packets, if pays then 1 else 0, now);
    DrawnLevel(r.bytes, if pays then len else 0, now);
    hide Level;
  }

  lemma SameVerdict(regular: Purses, priority: Purses, windows: map<Addr, Window>, s: Ideal, q: Query, rate: nat)
    requires SameStock(regular, s.regular, q.at) && SameStock(priority, s.priority, q.at) && windows == s.windows
    ensures Verdict(s, q, rate) == Decision(regular, priority, Find(windows, q.addr), q.len, q.isPriority, q.at, rate)
    ensures Verdict(s, q, rate) == Regular ==> Affords(regular, q.len, q.at)
    ensures Verdict(s, q, rate) == PriorityReserve ==> Affords(priority, q.len, q.at)
  {
    hide Level, Slot;
  }

  /** Buckets for packets and bytes a second, with a fifth of a second as burst: a packet and 512 bytes at least. */
  function Quota(packets: nat, bytes: nat, now: Instant): Purses {
    Purses(NewBucket(packets, AtLeast(CeilDiv(packets, 5), 1), false, true, now),
           NewBucket(bytes, AtLeast(CeilDiv(bytes, 5), 512), false, true, now))
  }

  /** Both buckets of a quota start full. One with a rate holds a fifth of a second's worth and not a whole token more,
      unless that is less than a packet or 512 bytes. */
  lemma QuotaBurst(packets: nat, bytes: nat, now: Instant)
    ensures var q := Quota(packets, bytes, now);
      && q.packets.tokens == q.packets.capacity && q.bytes.tokens == q.bytes.capacity
      && q.packets.rate == packets as real && q.bytes.rate == bytes as real
      && HoldsFifth(q.packets.capacity, packets, 1) && HoldsFifth(q.bytes.capacity, bytes, 512)
  {
    FifthOf(packets, 1);
    FifthOf(bytes, 512);
  }

  ghost predicate HoldsFifth(capacity: real, rate: nat, least: nat) {
    if rate == 0 then capacity == 0.0
    else
      && capacity >= least as real && 5.0 * capacity >= rate as real
      && (capacity > least as real ==> 5.0 * (capacity - 1.0) < rate as real)
  }

  lemma FifthOf(rate: nat, least: nat)
    ensures rate > 0 ==> HoldsFifth(AtLeast(CeilDiv(rate, 5), least) as real, rate, least)
  {
  }

  class WorkerResponseLimiter {
    const perSourceRate: nat
    var regular: Purses
    var priority: Purses
    var sources: map<Addr, Window>
    var sourceExpiry: seq<Idle>
    /** The windows of a limiter that forgets no source, and the times each source was replied to. */
    ghost var all: map<Addr, Window>
    ghost var logs: map<Addr, seq<Instant>>
    ghost var clock: Instant
    /** A limiter that forgets nothing, as it was at the start and as it is now, and what was asked and answered. */
    ghost const start: Ideal
    ghost var ideal: Ideal
    ghost var asked: seq<Query>
    ghost var answers: seq<Permit>

    ghost predicate Kept()
      reads this
    {
      && regular.Valid() && priority.Valid() && Forgets(sources, all, clock) && AllTracked(logs, all, perSourceRate)
      && Listed(sources, sourceExpiry, clock)
    }

    /** The limiter that forgets nothing holds the same and has given the same answers. */
    ghost predicate Agrees()
      reads this
    {
      && SameStock(regular, ideal.regular, clock) && SameStock(priority, ideal.priority, clock) && ideal.windows == all
      && ServedAll(start, asked, perSourceRate) == (ideal, answers)
    }

    ghost predicate Valid()
      reads this
    {
      Kept() && Agrees()
    }

    /** Over every run: the answers are those of a limiter that forgets no source. */
    lemma SameAnswers()
      requires Valid()
      ensures answers == ServedAll(start, asked, perSourceRate).1
    {
    }

    constructor (packetRate: nat, byteRate: nat, rate: nat, now: Instant)
      ensures Valid() && perSourceRate == rate && clock == now && sources == map[] && logs == map[]
      ensures start == Ideal(regular, priority, map[]) && asked == []
      ensures var bytes := if byteRate < 0x1_0000_0000 then byteRate else 0xFFFF_FFFF;
        && regular == Quota(packetRate - ReserveQuota(packetRate), bytes - ReserveQuota(bytes), now)
        && priority == Quota(ReserveQuota(packetRate), ReserveQuota(bytes), now)
      ensures regular.packets.rate + priority.packets.rate == packetRate as real
      ensures regular.bytes.rate + priority.bytes.rate == (if byteRate < 0x1_0000_0000 then byteRate
                                                           else 0xFFFF_FFFF) as real
    {
      var bytes := if byteRate < 0x1_0000_0000 then byteRate else 0xFFFF_FFFF;
      var keptPackets, keptBytes := ReserveQuota(packetRate), ReserveQuota(bytes);
      perSourceRate := rate;
      regular := Quota(packetRate - keptPackets, bytes - keptBytes, now);
      priority := Quota(keptPackets, keptBytes, now);
      sources, sourceExpiry, all, logs, clock := map[], [], map[], map[], now;
      start, ideal, asked, answers := Ideal(regular, priority, map[]), Ideal(regular, priority, map[]), [], [];
      new;
      assert forall a :: LogOf(logs, a) == [] && Find(all, a) == None;
    }

    /** Forget exactly the sources that were not replied to for a minute. */
    method ExpireSources(now: Instant)
      requires Kept() && clock <= now
      modifies this`sources, this`sourceExpiry, this`clock
      ensures Kept() && clock == now && sources == StillActive(old(sources), now)
    {
      hide AllTracked, Forgets, Listed;
      ForgetsLater(sources, all, clock, now);
      ListedLater(sources, sourceExpiry, clock, now);
      clock := now;
      while sourceExpiry != [] && sourceExpiry[0].deadline <= now
        invariant Kept() && clock == now
        invariant forall a :: a in sources ==> a in old(sources) && sources[a] == old(sources)[a]
        invariant forall a :: a in old(sources) && old(sources)[a].lastSeen + IDLE > now ==> a in sources
        decreases |sourceExpiry|
      {
        ListedPopped(sources, sourceExpiry, now);
        var a := sourceExpiry[0].addr;
        sourceExpiry := sourceExpiry[1..];
        if a in sources && Elapsed(sources[a].lastSeen, now) >= IDLE {
          ForgetsOne(sources, all, a, now);
          sources := sources - {a};
        }
      }
      NoneIdle(sources, sourceExpiry, now);
    }

    /** Count a reply for its source if the source's window has room. */
    method AcquireSourceSlot(addr: Addr, now: Instant) returns (ok: bool)
      requires Kept() && clock == now
      modifies this`sources, this`sourceExpiry, this`all, this`logs
      ensures Kept() && ok == (perSourceRate > 0 && Slot(Find(old(all), addr), now, perSourceRate).1)
      ensures all == if ok then old(all)[addr := Slot(Find(old(all), addr), now, perSourceRate).0] else old(all)
      ensures logs == if ok then old(logs)[addr := LogOf(old(logs), addr) + [now]] else old(logs)
    {
      if perSourceRate == 0 {
        return false;
      }
      hide AllTracked, Forgets, LogOf, Listed, Slot;
      SameSlot(sources, all, addr, now, perSourceRate);
      ForgetsSlot(sources, all, addr, now, perSourceRate);
      var slot := Slot(Find(sources, addr), now, perSourceRate);
      if !slot.1 {
        return false;
      }
      SlotSeen(Find(sources, addr), now, perSourceRate);
      ListedSlot(sources, sourceExpiry, addr, slot.0, now);
      TrackedGrant(logs, sources, all, addr, now, perSourceRate);
      sources := sources[addr := slot.0];
      all := all[addr := slot.0];
      logs := logs[addr := LogOf(logs, addr) + [now]];
      sourceExpiry := sourceExpiry + [Idle(now + IDLE, addr)];
      return true;
    }

    /** Whether a reply may be sent. The verdict is that of a limiter that forgets no source; a reply that is refused
        costs nothing, and one that is sent is paid for from one budget only. */
    method Acquire(addr: Addr, len: nat, isPriority: bool, now: Instant) returns (permit: Permit)
      requires Valid() && clock <= now
      modifies this
      ensures Valid() && clock == now
      ensures permit == Decision(old(regular), old(priority), Find(old(all), addr), len, isPriority, now, perSourceRate)
      ensures Charged(old(regular), regular, len, now, permit == Regular)
      ensures Charged(old(priority), priority, len, now, permit == PriorityReserve)
      ensures all == if permit != Rejected then old(all)[addr := Slot(Find(old(all), addr), now, perSourceRate).0]
                     else old(all)
      ensures logs == if permit != Rejected then old(logs)[addr := LogOf(old(logs), addr) + [now]] else old(logs)
      ensures asked == old(asked) + [Query(addr, len, isPriority, now)] && answers == old(answers) + [permit]
    {
      hide AllTracked, Forgets, Listed, Slot, LogOf, Level, Affords, SameStock, Charged, Decision, ServedAll, PaidFrom;
      ghost var q := Query(addr, len, isPriority, now);
      SameLater(regular, ideal.regular, clock, now);
      SameLater(priority, ideal.priority, clock, now);
      SameVerdict(regular, priority, all, ideal, q, perSourceRate);
      permit := Decide(addr, len, isPriority, now);
      SameCharged(old(regular), ideal.regular, regular, len, now, permit == Regular);
      SameCharged(old(priority), ideal.priority, priority, len, now, permit == PriorityReserve);
      ServedOne(start, asked, q, perSourceRate);
      ideal, asked, answers := Served(ideal, q, perSourceRate), asked + [q], answers + [permit];
    }

    method Decide(addr: Addr, len: nat, isPriority: bool, now: Instant) returns (permit: Permit)
      requires Kept() && clock <= now
      modifies this`regular, this`priority, this`sources, this`sourceExpiry, this`all, this`logs, this`clock
      ensures Kept() && clock == now
      ensures permit == Decision(old(regular), old(priority), Find(old(all), addr), len, isPriority, now, perSourceRate)
      ensures Charged(old(regular), regular, len, now, permit == Regular)
      ensures Charged(old(priority), priority, len, now, permit == PriorityReserve)
      ensures all == if permit != Rejected then old(all)[addr := Slot(Find(old(all), addr), now, perSourceRate).0]
                     else old(all)
      ensures logs == if permit != Rejected then old(logs)[addr := LogOf(old(logs), addr) + [now]] else old(logs)
    {
      hide AllTracked, Forgets, Listed, Slot, LogOf, Level, Affords;
      ExpireSources(now);
      ghost var r, p := regular, priority;
      BudgetFits(regular, now);
      BudgetFits(priority, now);
      var ok;
      regular, ok := TakeBudget(regular, len, now);
      if ok {
        var slot := AcquireSourceSlot(addr, now);
        if slot {
          return Regular;
        }
        regular := RefundBudget(regular, len, now);
        return Rejected;
      }
      if !isPriority {
        return Rejected;
      }
      priority, ok := TakeBudget(priority, len, now);
      if ok {
        var slot := AcquireSourceSlot(addr, now);
        if slot {
          return PriorityReserve;
        }
        priority := RefundBudget(priority, len, now);
      }
      return Rejected;
    }

    /** In no closed second does a source get more than twice its rate in replies. */
    lemma AtMostTwice(a: Addr, t: int)
      requires Valid()
      ensures CountIn(LogOf(logs, a), t) <= 2 * perSourceRate
    {
      assert Tracked(LogOf(logs, a), Find(all, a), perSourceRate);
      hide CountIn, Counts;
    }
  }

  lemma BudgetFits(p: Purses, now: Instant)
    requires p.Valid()
    ensures Level(p.packets, now) <= p.packets.capacity && Level(p.bytes, now) <= p.bytes.capacity
  {
    LevelBounds(p.packets, now);
    LevelBounds(p.bytes, now);
  }
}
