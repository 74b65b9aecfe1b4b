/** Token buckets. The class keeps lazily refilled fields; a Bucket value is their snapshot, and
    Level is the content an ideal, continuously refilled bucket would have. */
module Budgets {
  import opened Nodes

  datatype Bucket = Bucket(rate: real, capacity: real, tokens: real, lastRefill: Instant)
  {
    predicate Valid() {
      rate >= 0.0 && 0.0 <= tokens <= capacity
    }
  }

  /** Seconds from one instant to a later one; none if the clock did not advance. */
  function Seconds(from: Instant, to: Instant): (s: real)
    ensures s >= 0.0
  {
    if from < to then (to - from) as real / 1_000_000_000.0 else 0.0
  }

  function Min(x: real, y: real): real {
    if x <= y then x else y
  }

  /** The content at time `now` of a bucket that is refilled continuously. */
  function Level(b: Bucket, now: Instant): real {
    Min(b.tokens + b.rate * Seconds(b.lastRefill, now), b.capacity)
  }

  // ---------- the operations, as functions of the fields ----------

  function NewBucket(rate: nat, burst: nat, perMinute: bool, full: bool, now: Instant): (b: Bucket)
    ensures b.Valid() && Level(b, now) == b.tokens
  {
    var r := if perMinute then rate as real / 60.0 else rate as real;
    var capacity := if rate == 0 then 0.0 else if burst == 0 then 1.0 else burst as real;
    Bucket(r, capacity, if full then capacity else 0.0, now)
  }

  function Refill(b: Bucket, now: Instant): (r: Bucket)
    requires b.Valid()
  {
    if b.lastRefill < now then b.(tokens := Level(b, now), lastRefill := now) else b
  }

  function SetRate(b: Bucket, rate: nat, now: Instant): Bucket
    requires b.Valid()
  {
    var r := Refill(b, now);
    r.(rate := rate as real, tokens := if rate == 0 then 0.0 else r.tokens)
  }

  function TakeExact(b: Bucket, count: nat, now: Instant): (r: (Bucket, bool))
    requires b.Valid()
  {
    if count == 0 then (b, true)
    else if b.rate <= 0.0 || b.capacity <= 0.0 then (b, false)
    else
      var f := Refill(b, now);
      if f.tokens < count as real then (f, false) else (f.(tokens := f.tokens - count as real), true)
  }

  function TakeUpTo(b: Bucket, max: nat, now: Instant): (r: (Bucket, nat))
    requires b.Valid()
    ensures r.1 <= max
  {
    if max == 0 || b.rate <= 0.0 || b.capacity <= 0.0 then (b, 0)
    else
      var f := Refill(b, now);
      LevelBounds(b, now);
      var taken := if f.tokens.Floor < max then f.tokens.Floor else max;
      (f.(tokens := f.tokens - taken as real), taken)
  }

  function Refund(b: Bucket, count: nat): Bucket
    requires b.Valid()
  {
    b.(tokens := Min(b.tokens + count as real, b.capacity))
  }

  // ---------- each operation acts on the ideal level ----------

  lemma LevelBounds(b: Bucket, now: Instant)
    requires b.Valid()
    ensures b.tokens <= Level(b, now) <= b.capacity
    ensures b.rate == 0.0 ==> Level(b, now) == b.tokens
  {
    assert b.rate * Seconds(b.lastRefill, now) >= 0.0;
  }

  lemma SecondsSplit(a: Instant, b: Instant, c: Instant)
    requires a <= b <= c
    ensures Seconds(a, c) == Seconds(a, b) + Seconds(b, c)
  {
  }

  /** Waiting adds at most the rate times the waiting time. */
  lemma LevelGrowth(b: Bucket, t: Instant, now: Instant)
    requires b.Valid() && b.lastRefill <= t <= now
    ensures Level(b, t) <= Level(b, now) <= Level(b, t) + b.rate * Seconds(t, now)
  {
    SecondsSplit(b.lastRefill, t, now);
    assert b.rate * Seconds(b.lastRefill, now) == b.rate * Seconds(b.lastRefill, t) + b.rate * Seconds(t, now);
    assert b.rate * Seconds(t, now) >= 0.0;
  }

  /** Refilling keeps the level at every later time: when it happens does not matter. */
  lemma RefillKeepsLevel(b: Bucket, t: Instant, now: Instant)
    requires b.Valid() && t <= now
    ensures Refill(b, t).Valid() && Level(Refill(b, t), now) == Level(b, now)
    ensures b.lastRefill <= Refill(b, t).lastRefill && Level(Refill(b, t), t) == Refill(b, t).tokens == Level(b, t)
  {
    LevelBounds(b, t);
    if b.lastRefill < t {
      SecondsSplit(b.lastRefill, t, now);
      assert b.rate * Seconds(b.lastRefill, now) == b.rate * Seconds(b.lastRefill, t) + b.rate * Seconds(t, now);
      assert b.rate * Seconds(t, now) >= 0.0;
    }
  }

  /** A take removes exactly what it reports from the level, and reports as much as it can. */
  lemma TakeUpToLevel(b: Bucket, max: nat, now: Instant)
    requires b.Valid()
    ensures var (after, taken) := TakeUpTo(b, max, now);
      && after.Valid() && after.capacity == b.capacity && after.rate == b.rate && b.lastRefill <= after.lastRefill
      && Level(after, now) == Level(b, now) - taken as real
      && (taken < max && b.rate > 0.0 ==> Level(after, now) < 1.0)
      && (b.rate == 0.0 ==> taken == 0)
  {
    RefillKeepsLevel(b, now, now);
    LevelBounds(b, now);
  }

  /** How many tokens can be taken: as many whole ones as the level holds, `max` at most; none at rate zero. */
  function WholeTokens(b: Bucket, max: nat, now: Instant): nat
    requires b.Valid()
  {
    LevelBounds(b, now);
    if b.rate <= 0.0 then 0 else if Level(b, now).Floor < max then Level(b, now).Floor else max
  }

  lemma TakeUpToWhole(b: Bucket, max: nat, now: Instant)
    requires b.Valid()
    ensures TakeUpTo(b, max, now).1 == WholeTokens(b, max, now)
  {
    RefillKeepsLevel(b, now, now);
    LevelBounds(b, now);
  }

  /** An exact take succeeds if and only if it asks for nothing or the bucket has a rate and the level
      covers it; a failed one changes no level. */
  lemma TakeExactLevel(b: Bucket, count: nat, now: Instant)
    requires b.Valid()
    ensures var (after, ok) := TakeExact(b, count, now);
      && after.Valid() && after.capacity == b.capacity && after.rate == b.rate && b.lastRefill <= after.lastRefill
      && (ok <==> count == 0 || (b.rate > 0.0 && count as real <= Level(b, now)))
      && Level(after, now) == Level(b, now) - (if ok then count as real else 0.0)
  {
    RefillKeepsLevel(b, now, now);
    LevelBounds(b, now);
  }

  /** A refund adds to the level up to the capacity. */
  lemma RefundLevel(b: Bucket, count: nat, now: Instant)
    requires b.Valid()
    ensures Refund(b, count).Valid() && Refund(b, count).capacity == b.capacity && Refund(b, count).rate == b.rate
    ensures Refund(b, count).lastRefill == b.lastRefill
    ensures Level(Refund(b, count), now) == Min(Level(b, now) + count as real, b.capacity)
  {
    assert b.rate * Seconds(b.lastRefill, now) >= 0.0;
  }

  /** A rate change keeps the level, except that a zero rate empties the bucket. */
  lemma SetRateLevel(b: Bucket, rate: nat, now: Instant)
    requires b.Valid()
    ensures var after := SetRate(b, rate, now);
      && after.Valid() && after.capacity == b.capacity && after.rate == rate as real && b.lastRefill <= after.lastRefill
      && Level(after, now) == (if rate == 0 then 0.0 else Level(b, now))
  {
    RefillKeepsLevel(b, now, now);
    LevelBounds(b, now);
  }

  // ---------- whole runs ----------

  datatype Op =
    | Exact(at: Instant, count: nat)
    | UpTo(at: Instant, max: nat)
    | GiveBack(at: Instant, count: nat)
    | Rate(at: Instant, rate: nat)

  ghost predicate Monotone(t0: Instant, ops: seq<Op>)
    decreases ops
  {
    ops == [] || (t0 <= ops[0].at && Monotone(ops[0].at, ops[1..]))
  }

  /** The bucket after one operation and the net number of tokens it handed out. */
  function Apply(b: Bucket, op: Op): (r: (Bucket, int))
    requires b.Valid()
  {
    match op
    case Exact(at, count) =>
      var (after, ok) := TakeExact(b, count, at);
      (after, (if ok then count else 0) as int)
    case UpTo(at, max) =>
      var (after, taken) := TakeUpTo(b, max, at);
      (after, taken as int)
    case GiveBack(_, count) => (Refund(b, count), 0 - count)
    case Rate(at, rate) => (SetRate(b, rate, at), 0)
  }

  lemma ApplyLevel(b: Bucket, op: Op)
    requires b.Valid() && b.lastRefill <= op.at
    ensures Apply(b, op).0.Valid() && Apply(b, op).0.capacity == b.capacity
    ensures Apply(b, op).0.lastRefill <= op.at
    ensures Level(Apply(b, op).0, op.at) + Apply(b, op).1 as real <= Level(b, op.at)
    ensures op.Rate? ==> Apply(b, op).0.rate == op.rate as real
    ensures !op.Rate? ==> Apply(b, op).0.rate == b.rate
  {
    LevelBounds(b, op.at);
    match op
    case Exact(at, count) => TakeExactLevel(b, count, at);
    case UpTo(at, max) => TakeUpToLevel(b, max, at);
    case GiveBack(at, count) => RefundLevel(b, count, at);
    case Rate(at, rate) => SetRateLevel(b, rate, at);
  }

  /** The bucket after a run and the net number of tokens handed out during it. */
  ghost function Run(b: Bucket, ops: seq<Op>): (r: (Bucket, int))
    requires b.Valid() && Monotone(b.lastRefill, ops)
    decreases ops
  {
    if ops == [] then (b, 0)
    else
      ApplyLevel(b, ops[0]);
      var (next, net) := Apply(b, ops[0]);
      MonotoneEarlier(next.lastRefill, ops[0].at, ops[1..]);
      var (last, rest) := Run(next, ops[1..]);
      (last, net + rest)
  }

  lemma MonotoneEarlier(t0: Instant, t1: Instant, ops: seq<Op>)
    requires t0 <= t1 && Monotone(t1, ops)
    ensures Monotone(t0, ops)
  {
  }

  /** The integral of the rate in force from `t0` to `end`, the rate being `rate` at `t0`. */
  ghost function Allowance(rate: real, t0: Instant, ops: seq<Op>, end: Instant): real
    decreases ops
  {
    if ops == [] then rate * Seconds(t0, end)
    else
      rate * Seconds(t0, ops[0].at) +
      Allowance(if ops[0].Rate? then ops[0].rate as real else rate, ops[0].at, ops[1..], end)
  }

  ghost function LastTime(t0: Instant, ops: seq<Op>): Instant
    decreases ops
  {
    if ops == [] then t0 else LastTime(ops[0].at, ops[1..])
  }

  /** Over every run, what is handed out plus what is left is at most what was there at the start plus
      the integral of the rate: so no more than a full bucket plus the integral, and nothing for a
      period spent at rate zero. */
  lemma {:induction false} RunBound(b: Bucket, t0: Instant, ops: seq<Op>, end: Instant)
    requires b.Valid() && b.lastRefill <= t0 && Monotone(t0, ops) && LastTime(t0, ops) <= end
    requires Monotone(b.lastRefill, ops)
    ensures var (last, net) := Run(b, ops);
      && last.Valid() && last.capacity == b.capacity && last.lastRefill <= end
      && net as real + Level(last, end) <= Level(b, t0) + Allowance(b.rate, t0, ops, end)
    decreases ops
  {
    hide Level, Seconds, Apply;
    if ops == [] {
      LevelGrowth(b, t0, end);
    } else {
      ApplyLevel(b, ops[0]);
      LevelGrowth(b, t0, ops[0].at);
      MonotoneEarlier(Apply(b, ops[0]).0.lastRefill, ops[0].at, ops[1..]);
      RunBound(Apply(b, ops[0]).0, ops[0].at, ops[1..], end);
    }
  }

  /** At most a full bucket plus the integral of the rate is handed out over any run. */
  lemma RunWithinCapacity(b: Bucket, t0: Instant, ops: seq<Op>, end: Instant)
    requires b.Valid() && b.lastRefill <= t0 && Monotone(t0, ops) && LastTime(t0, ops) <= end
    requires Monotone(b.lastRefill, ops)
    ensures Run(b, ops).1 as real <= b.capacity + Allowance(b.rate, t0, ops, end)
  {
    RunBound(b, t0, ops, end);
    LevelBounds(b, t0);
    LevelBounds(Run(b, ops).0, end);
  }

  /** Emptied at rate zero and restarted at `restart` after any takes, refunds and repetitions of the rate zero, the
      bucket hands out, net of refunds, no more than the new rates earn from then on: the pause earns nothing. */
  lemma NoRetroactiveCredit(b: Bucket, stop: Instant, idle: seq<Op>, restart: Instant, rate: nat, ops: seq<Op>,
                            end: Instant)
    requires b.Valid() && b.lastRefill <= stop
    requires forall i :: 0 <= i < |idle| ==> idle[i].Rate? ==> idle[i].rate == 0
    requires Monotone(stop, idle) && LastTime(stop, idle) <= restart
    requires Monotone(restart, ops) && LastTime(restart, ops) <= end
    ensures Monotone(b.lastRefill, [Rate(stop, 0)] + idle + [Rate(restart, rate)] + ops)
    ensures Run(b, [Rate(stop, 0)] + idle + [Rate(restart, rate)] + ops).1 as real
         <= Allowance(rate as real, restart, ops, end)
  {
    var tail := [Rate(restart, rate)] + ops;
    var all := [Rate(stop, 0)] + (idle + tail);
    assert all == [Rate(stop, 0)] + idle + [Rate(restart, rate)] + ops;
    assert all[1..] == idle + tail;
    IdleAllowance(stop, idle, restart, rate, ops, end);
    MonotoneEarlier(b.lastRefill, stop, all);
    SetRateLevel(b, 0, stop);
    ApplyLevel(b, all[0]);
    var emptied := Apply(b, all[0]).0;
    MonotoneEarlier(emptied.lastRefill, stop, idle + tail);
    RunBound(emptied, stop, idle + tail, end);
    LevelBounds(Run(emptied, idle + tail).0, end);
  }

  lemma {:induction false} IdleAllowance(t0: Instant, idle: seq<Op>, restart: Instant, rate: nat, ops: seq<Op>,
                                         end: Instant)
    requires forall i :: 0 <= i < |idle| ==> idle[i].Rate? ==> idle[i].rate == 0
    requires Monotone(t0, idle) && LastTime(t0, idle) <= restart
    requires Monotone(restart, ops) && LastTime(restart, ops) <= end
    ensures var tail := idle + ([Rate(restart, rate)] + ops);
      && Monotone(t0, tail) && LastTime(t0, tail) <= end
      && Allowance(0.0, t0, tail, end) == Allowance(rate as real, restart, ops, end)
    decreases idle
  {
    var tail := [Rate(restart, rate)] + ops;
    if idle == [] {
      assert idle + tail == tail && tail[1..] == ops;
    } else {
      assert (idle + tail)[1..] == idle[1..] + tail;
      IdleAllowance(idle[0].at, idle[1..], restart, rate, ops, end);
    }
  }

  // ---------- the mutable bucket ----------

  /** Single-owner token bucket: every method is the function of the same name on the fields. */
  class RateBucket {
    var rate: real
    var capacity: real
    var tokens: real
    var lastRefill: Instant

    ghost function View(): Bucket
      reads this
    {
      Bucket(rate, capacity, tokens, lastRefill)
    }

    constructor (count: nat, burst: nat, perMinute: bool, initiallyFull: bool, now: Instant)
      ensures View() == NewBucket(count, burst, perMinute, initiallyFull, now) && View().Valid()
    {
      rate := if perMinute then count as real / 60.0 else count as real;
      var limit := if count == 0 then 0.0 else if burst == 0 then 1.0 else burst as real;
      capacity := limit;
      tokens := if initiallyFull then limit else 0.0;
      lastRefill := now;
    }

    method RefillTo(now: Instant)
      requires View().Valid()
      modifies this
      ensures View() == Refill(old(View()), now)
    {
      if lastRefill < now {
        var grown := tokens + rate * Seconds(lastRefill, now);
        tokens := if grown <= capacity then grown else capacity;
        lastRefill := now;
      }
    }

    method SetPerSecondRate(perSecond: nat, now: Instant)
      requires View().Valid()
      modifies this
      ensures View() == SetRate(old(View()), perSecond, now) && View().Valid()
    {
      SetRateLevel(View(), perSecond, now);
      RefillKeepsLevel(View(), now, now);
      RefillTo(now);
      rate := perSecond as real;
      if perSecond == 0 {
        tokens := 0.0;
      } else {
        tokens := Min(tokens, capacity);
      }
    }

    method TryTakeExact(count: nat, now: Instant) returns (ok: bool)
      requires View().Valid()
      modifies this
      ensures (View(), ok) == TakeExact(old(View()), count, now) && View().Valid()
    {
      TakeExactLevel(View(), count, now);
      if count == 0 {
        return true;
      }
      if rate <= 0.0 || capacity <= 0.0 {
        return false;
      }
      RefillTo(now);
      if tokens < count as real {
        return false;
      }
      tokens := tokens - count as real;
      return true;
    }

    method TryTake(max: nat, now: Instant) returns (taken: nat)
      requires View().Valid()
      modifies this
      ensures (View(), taken) == TakeUpTo(old(View()), max, now) && View().Valid()
    {
      TakeUpToLevel(View(), max, now);
      RefillKeepsLevel(View(), now, now);
      if max == 0 || rate <= 0.0 || capacity <= 0.0 {
        return 0;
      }
      RefillTo(now);
      taken := if tokens.Floor < max then tokens.Floor else max;
      tokens := tokens - taken as real;
    }

    method RefundTokens(count: nat)
      requires View().Valid()
      modifies this
      ensures View() == Refund(old(View()), count) && View().Valid()
    {
      tokens := Min(tokens + count as real, capacity);
    }
  }
}
