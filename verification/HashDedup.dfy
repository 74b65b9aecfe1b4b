/** The bounded memory of hashes that discovery has passed on, each with the few endpoints it came from. */
module HashDedups {
  import opened Common
  import opened Nodes
  import opened PendingQueues

  const MAX_HASH_SOURCES: nat := 4

  datatype Report = Report(addr: Addr, source: Source)

  datatype Mark = Mark(at: Instant, hash: Hash)

  /** Where an endpoint is among a hash's reports, or their number. */
  function IndexOf(reports: seq<Report>, a: Addr): (i: nat)
    ensures i <= |reports| && (i < |reports| ==> reports[i].addr == a)
    ensures forall j :: 0 <= j < i ==> reports[j].addr != a
  {
    if reports == [] || reports[0].addr == a then 0 else 1 + IndexOf(reports[1..], a)
  }

  /** A report is no news: its endpoint reported the hash before, unless it asked for it then and has it now; or
      the hash has enough reports. */
  predicate NoNews(reports: seq<Report>, a: Addr, source: Source) {
    var i := IndexOf(reports, a);
    if i < |reports| then !(reports[i].source == GetPeers && source == Sample) else |reports| >= MAX_HASH_SOURCES
  }

  function Known(entries: map<Hash, seq<Report>>, hash: Hash, a: Addr, source: Source): bool {
    hash in entries && NoNews(entries[hash], a, source)
  }

  /** A hash's reports with one more. */
  function Reported(reports: seq<Report>, a: Addr, source: Source): seq<Report> {
    var i := IndexOf(reports, a);
    if i < |reports| then if source == Sample then reports[i := Report(a, source)] else reports
    else if |reports| < MAX_HASH_SOURCES then reports + [Report(a, source)]
    else reports
  }

  ghost predicate DistinctAddrs(reports: seq<Report>) {
    forall i, j :: 0 <= i < j < |reports| ==> reports[i].addr != reports[j].addr
  }

  ghost predicate ReportsOk(reports: seq<Report>) {
    DistinctAddrs(reports) && 0 < |reports| <= MAX_HASH_SOURCES
  }

  lemma {:induction false} IndexKept(reports: seq<Report>, i: nat, r: Report)
    requires i < |reports| && r.addr == reports[i].addr && IndexOf(reports, r.addr) == i
    ensures IndexOf(reports[i := r], r.addr) == i
  {
    if i == 0 {
    } else {
      assert reports[i := r][1..] == reports[1..][i - 1 := r];
      IndexKept(reports[1..], i - 1, r);
    }
  }

  lemma {:induction false} IndexNew(reports: seq<Report>, r: Report)
    requires IndexOf(reports, r.addr) == |reports|
    ensures IndexOf(reports + [r], r.addr) == |reports|
  {
    if reports == [] {
    } else {
      assert (reports + [r])[1..] == reports[1..] + [r];
      IndexNew(reports[1..], r);
    }
  }

  /** A report that was taken in is no news any more, and the reports stay few and different. */
  lemma NoLongerNews(reports: seq<Report>, a: Addr, source: Source)
    requires ReportsOk(reports)
    ensures ReportsOk(Reported(reports, a, source)) && NoNews(Reported(reports, a, source), a, source)
  {
    var i := IndexOf(reports, a);
    if i < |reports| {
      IndexKept(reports, i, Report(a, source));
    } else {
      IndexNew(reports, Report(a, source));
    }
  }

  // ---------- the marks ----------

  /** The marks are in order of time, one for each hash. */
  ghost predicate Marked(entries: map<Hash, seq<Report>>, expiry: seq<Mark>) {
    && (forall i, j :: 0 <= i < j < |expiry| ==> expiry[i].at <= expiry[j].at && expiry[i].hash != expiry[j].hash)
    && (forall i :: 0 <= i < |expiry| ==> expiry[i].hash in entries)
    && (forall h :: h in entries ==> exists i :: 0 <= i < |expiry| && expiry[i].hash == h)
  }

  lemma MarkedPop(entries: map<Hash, seq<Report>>, expiry: seq<Mark>)
    requires Marked(entries, expiry) && expiry != []
    ensures Marked(entries - {expiry[0].hash}, expiry[1..])
  {
    var rest := entries - {expiry[0].hash};
    forall h | h in rest ensures exists i :: 0 <= i < |expiry[1..]| && expiry[1..][i].hash == h {
      var i :| 0 <= i < |expiry| && expiry[i].hash == h;
      assert expiry[1..][i - 1].hash == h;
    }
  }

  lemma MarkedPush(entries: map<Hash, seq<Report>>, expiry: seq<Mark>, m: Mark, reports: seq<Report>)
    requires Marked(entries, expiry) && m.hash !in entries && (forall i :: 0 <= i < |expiry| ==> expiry[i].at <= m.at)
    ensures Marked(entries[m.hash := reports], expiry + [m])
  {
    var after, marks := entries[m.hash := reports], expiry + [m];
    assert marks[|expiry|] == m;
    forall h | h in after ensures exists i :: 0 <= i < |marks| && marks[i].hash == h {
      if h != m.hash {
        var i :| 0 <= i < |expiry| && expiry[i].hash == h;
        assert marks[i].hash == h;
      }
    }
  }

  lemma MarkedSame(entries: map<Hash, seq<Report>>, expiry: seq<Mark>, hash: Hash, reports: seq<Report>)
    requires Marked(entries, expiry) && hash in entries
    ensures Marked(entries[hash := reports], expiry)
  {
  }

  ghost predicate Tidy(entries: map<Hash, seq<Report>>, expiry: seq<Mark>, clock: Instant, ttl: nat, capacity: nat) {
    && capacity > 0 && |entries| <= capacity && Marked(entries, expiry)
    && (forall h :: h in entries ==> ReportsOk(entries[h]))
    && (forall i :: 0 <= i < |expiry| ==> expiry[i].at <= clock + ttl)
  }

  lemma TidyLater(entries: map<Hash, seq<Report>>, expiry: seq<Mark>, clock: Instant, now: Instant, ttl: nat,
                  capacity: nat)
    requires Tidy(entries, expiry, clock, ttl, capacity) && clock <= now
    ensures Tidy(entries, expiry, now, ttl, capacity)
  {
    hide Marked, ReportsOk;
  }

  lemma TidyPop(entries: map<Hash, seq<Report>>, expiry: seq<Mark>, clock: Instant, ttl: nat, capacity: nat)
    requires Tidy(entries, expiry, clock, ttl, capacity) && expiry != []
    ensures expiry[0].hash in entries && Tidy(entries - {expiry[0].hash}, expiry[1..], clock, ttl, capacity)
    ensures |entries - {expiry[0].hash}| == |entries| - 1
  {
    MarkedPop(entries, expiry);
    assert expiry[0].hash in entries;
    SizeDrop(entries, expiry[0].hash);
    hide Marked, ReportsOk;
  }

  lemma TidySame(entries: map<Hash, seq<Report>>, expiry: seq<Mark>, clock: Instant, ttl: nat, capacity: nat,
                 hash: Hash, reports: seq<Report>)
    requires Tidy(entries, expiry, clock, ttl, capacity) && hash in entries && ReportsOk(reports)
    ensures Tidy(entries[hash := reports], expiry, clock, ttl, capacity)
  {
    hide ReportsOk, Marked;
    MarkedSame(entries, expiry, hash, reports);
    SizeAdd(entries, hash, reports);
  }

  lemma TidyPush(entries: map<Hash, seq<Report>>, expiry: seq<Mark>, clock: Instant, ttl: nat, capacity: nat,
                 hash: Hash, reports: seq<Report>)
    requires Tidy(entries, expiry, clock, ttl, capacity) && hash !in entries && ReportsOk(reports)
    requires |entries| < capacity
    ensures Tidy(entries[hash := reports], expiry + [Mark(clock + ttl, hash)], clock, ttl, capacity)
  {
    hide ReportsOk, Marked;
    MarkedPush(entries, expiry, Mark(clock + ttl, hash), reports);
    SizeAdd(entries, hash, reports);
  }

  lemma TidySorted(entries: map<Hash, seq<Report>>, expiry: seq<Mark>, clock: Instant, ttl: nat, capacity: nat)
    requires Tidy(entries, expiry, clock, ttl, capacity)
    ensures forall i :: 0 <= i < |expiry| ==> expiry[0].at <= expiry[i].at
    ensures |entries| >= capacity ==> expiry != []
  {
    FullIsMarked(entries, expiry, capacity);
    hide ReportsOk;
  }

  class HashDedup {
    const capacity: nat
    const ttl: nat
    var entries: map<Hash, seq<Report>>
    var expiry: seq<Mark>
    ghost var clock: Instant

    ghost predicate Valid()
      reads this
    {
      Tidy(entries, expiry, clock, ttl, capacity)
    }

    constructor (limit: nat, lifetime: nat, now: Instant)
      ensures Valid() && entries == map[] && clock == now && ttl == lifetime
      ensures capacity == if limit == 0 then 1 else limit
    {
      capacity, ttl := if limit == 0 then 1 else limit, lifetime;
      entries, expiry, clock := map[], [], now;
    }

    /** Whether a report is no news at `now`; hashes whose time is over are forgotten first, and no others. */
    method Contains(hash: Hash, a: Addr, source: Source, now: Instant) returns (r: bool, ghost gone: nat)
      requires Valid() && clock <= now
      modifies this
      ensures Valid() && clock == now && r == Known(entries, hash, a, source)
      ensures forall h :: h in entries ==> h in old(entries) && entries[h] == old(entries)[h]
      ensures gone <= |old(expiry)| && expiry == old(expiry)[gone..]
      ensures (forall i :: 0 <= i < gone ==> old(expiry)[i].at <= now) && forall i :: 0 <= i < |expiry| ==>
        expiry[i].at > now
    {
      hide Tidy, NoNews;
      TidyLater(entries, expiry, clock, now, ttl, capacity);
      clock := now;
      gone := 0;
      while expiry != [] && expiry[0].at <= now
        invariant Valid() && clock == now && gone <= |old(expiry)| && expiry == old(expiry)[gone..]
        invariant forall i :: 0 <= i < gone ==> old(expiry)[i].at <= now
        invariant forall h :: h in entries ==> h in old(entries) && entries[h] == old(entries)[h]
        decreases |expiry|
      {
        TidyPop(entries, expiry, clock, ttl, capacity);
        entries := entries - {expiry[0].hash};
        expiry := expiry[1..];
        gone := gone + 1;
      }
      TidySorted(entries, expiry, clock, ttl, capacity);
      r := hash in entries && NoNews(entries[hash], a, source);
    }

    /** Take in a report. It is no news any more; a hash known before keeps its time, and a new one displaces the
        hash that would be forgotten first when there is no room. */
    method Insert(hash: Hash, a: Addr, source: Source, now: Instant)
      requires Valid() && clock <= now
      modifies this
      ensures Valid() && clock == now && Known(entries, hash, a, source)
      ensures if hash in old(entries)
              then expiry == old(expiry) && entries == old(entries)[hash := Reported(old(entries)[hash], a, source)]
              else InsertedNew(old(entries), old(expiry), entries, expiry, hash, a, source, now + ttl, capacity)
    {
      hide Tidy, NoNews, ReportsOk, Reported;
      TidyLater(entries, expiry, clock, now, ttl, capacity);
      clock := now;
      if hash in entries {
        AllReportsOk(entries, expiry, clock, ttl, capacity, hash);
        NoLongerNews(entries[hash], a, source);
        TidySame(entries, expiry, clock, ttl, capacity, hash, Reported(entries[hash], a, source));
        entries := entries[hash := Reported(entries[hash], a, source)];
        return;
      }
      TidySorted(entries, expiry, clock, ttl, capacity);
      if |entries| >= capacity {
        CapacityIs(entries, expiry, clock, ttl, capacity);
        TidyPop(entries, expiry, clock, ttl, capacity);
        entries := entries - {expiry[0].hash};
        expiry := expiry[1..];
      }
      OneReport(a, source);
      TidyPush(entries, expiry, clock, ttl, capacity, hash, [Report(a, source)]);
      entries := entries[hash := [Report(a, source)]];
      expiry := expiry + [Mark(now + ttl, hash)];
    }
  }

  /** What a report of a new hash does: at capacity the hash that would be forgotten first goes. */
  ghost predicate InsertedNew(before: map<Hash, seq<Report>>, marks: seq<Mark>, after: map<Hash, seq<Report>>,
                              marksAfter: seq<Mark>, hash: Hash, a: Addr, source: Source, until: Instant,
                              capacity: nat) {
    if |before| >= capacity then
      && marks != [] && marksAfter == marks[1..] + [Mark(until, hash)]
      && after == (before - {marks[0].hash})[hash := [Report(a, source)]]
    else marksAfter == marks + [Mark(until, hash)] && after == before[hash := [Report(a, source)]]
  }

  lemma AllReportsOk(entries: map<Hash, seq<Report>>, expiry: seq<Mark>, clock: Instant, ttl: nat, capacity: nat,
                     h: Hash)
    requires Tidy(entries, expiry, clock, ttl, capacity) && h in entries
    ensures ReportsOk(entries[h])
  {
    hide Marked, ReportsOk;
  }

  lemma CapacityIs(entries: map<Hash, seq<Report>>, expiry: seq<Mark>, clock: Instant, ttl: nat, capacity: nat)
    requires Tidy(entries, expiry, clock, ttl, capacity)
    ensures |entries| <= capacity && capacity > 0
  {
    hide Marked, ReportsOk;
  }

  lemma OneReport(a: Addr, source: Source)
    ensures ReportsOk([Report(a, source)]) && NoNews([Report(a, source)], a, source)
  {
  }

  lemma FullIsMarked(entries: map<Hash, seq<Report>>, expiry: seq<Mark>, capacity: nat)
    requires Marked(entries, expiry) && capacity > 0
    ensures |entries| >= capacity ==> expiry != []
  {
    if entries != map[] {
      var h :| h in entries;
      assert exists i :: 0 <= i < |expiry| && expiry[i].hash == h;
    }
  }
}
