/** Sampling of info hashes as BEP 51 describes it: which endpoints may be asked, which are waited for, and which
    asked to be left alone until a time of their own. */
module Discovery {
  import opened Common
  import opened Nodes
  import opened Budgets

  const MAX_REMOTE_INTERVAL: nat := 21_600
  const MAX_SAMPLES_PER_RESPONSE: nat := 256

  datatype Options = Options(queryTimeoutSecs: nat, minIntervalSecs: nat, failureBackoffSecs: nat,
                             noNewBackoffSecs: nat,
                             maxNodes: nat, maxInFlight: nat, cooldownCapacity: nat, burst: nat, queriesPerSecond: nat)

  datatype DueKey = DueKey(at: Instant, number: nat, addr: Addr)

  /** A candidate: with a key while it waits for its turn, without one while its reply is awaited. */
  datatype Sample = Sample(node: Node, due: Option<DueKey>)

  datatype Awaited = Awaited(tid: nat, deadline: Instant)

  datatype Cooldown = Cooldown(node: Node, until: Instant)

  datatype Wake = Wake(until: Instant, addr: Addr)

  datatype Book = Book(nodes: map<Addr, Sample>, due: set<DueKey>, sequence: nat, pending: map<Addr, Awaited>,
                       cooldowns: map<Addr, Cooldown>, wakes: set<Wake>)

  function Longer(x: nat, y: nat): nat {
    if x < y then y else x
  }

  // ---------- what holds between steps ----------

  /** Every key belongs to a candidate and every keyed candidate has its key listed. */
  ghost predicate Keyed(nodes: map<Addr, Sample>, due: set<DueKey>, sequence: nat) {
    && (forall a :: a in nodes && nodes[a].due.Some? ==> nodes[a].due.value in due && nodes[a].due.value.addr == a)
    && (forall k :: k in due ==> k.addr in nodes && nodes[k.addr].due == Some(k) && k.number <= sequence)
  }

  /** The endpoints awaited are exactly the candidates without a key. */
  ghost predicate Awaiting(nodes: map<Addr, Sample>, pending: map<Addr, Awaited>) {
    forall a :: a in pending <==> a in nodes && nodes[a].due.None?
  }

  /** One wake-up for each endpoint that cools down. */
  ghost predicate Cooling(cooldowns: map<Addr, Cooldown>, wakes: set<Wake>) {
    && (forall a :: a in cooldowns ==> Wake(cooldowns[a].until, a) in wakes)
    && (forall w :: w in wakes ==> w.addr in cooldowns && cooldowns[w.addr].until == w.until)
  }

  /** Endpoints awaited and cooling down fit the history that was reserved for them. */
  ghost predicate Fits(b: Book, o: Options) {
    && |b.cooldowns| + |b.pending| <= AtLeastOne(o.cooldownCapacity)
    && |b.pending| <= o.maxInFlight && |b.nodes| <= AtLeastOne(o.maxNodes)
  }

  /** No candidate is cooling down. */
  ghost predicate Apart(b: Book) {
    b.nodes.Keys !! b.cooldowns.Keys
  }

  /** Every node is filed under its own endpoint. */
  ghost predicate Filed(b: Book) {
    && (forall a :: a in b.nodes ==> b.nodes[a].node.addr == a)
    && (forall a :: a in b.cooldowns ==> b.cooldowns[a].node.addr == a)
  }

  ghost predicate Tidy(b: Book, o: Options) {
    && Keyed(b.nodes, b.due, b.sequence) && Awaiting(b.nodes, b.pending) && Cooling(b.cooldowns, b.wakes)
    && Apart(b) && Fits(b, o) && Filed(b)
  }

  // ---------- the history of contacts ----------

  /** What happened between the crawler and an endpoint: a query, or a time before which not to ask again. */
  datatype Contact = Asked(addr: Addr, at: Instant) | Told(addr: Addr, until: Instant)

  /** No endpoint was asked before a time that it, or its failure, had set earlier. */
  ghost predicate Polite(log: seq<Contact>) {
    forall i, j :: 0 <= i < j < |log| && log[i].Told? && log[j].Asked? && log[i].addr == log[j].addr ==>
      log[i].until <= log[j].at
  }

  /** A time that has not come is still being waited for. */
  ghost predicate Remembered(log: seq<Contact>, cooldowns: map<Addr, Cooldown>, clock: Instant) {
    forall i :: 0 <= i < |log| && log[i].Told? && log[i].until > clock ==>
      log[i].addr in cooldowns && cooldowns[log[i].addr].until >= log[i].until
  }

  lemma Ask(log: seq<Contact>, cooldowns: map<Addr, Cooldown>, clock: Instant, a: Addr)
    requires Polite(log) && Remembered(log, cooldowns, clock) && a !in cooldowns
    ensures Polite(log + [Asked(a, clock)]) && Remembered(log + [Asked(a, clock)], cooldowns, clock)
  {
  }

  lemma Tell(log: seq<Contact>, cooldowns: map<Addr, Cooldown>, clock: Instant, a: Addr, c: Cooldown)
    requires Polite(log) && Remembered(log, cooldowns, clock) && a !in cooldowns
    ensures Polite(log + [Told(a, c.until)]) && Remembered(log + [Told(a, c.until)], cooldowns[a := c], clock)
  {
  }

  lemma Wait(log: seq<Contact>, cooldowns: map<Addr, Cooldown>, clock: Instant, now: Instant)
    requires Remembered(log, cooldowns, clock) && clock <= now
    ensures Remembered(log, cooldowns, now)
  {
  }

  lemma Forget(log: seq<Contact>, cooldowns: map<Addr, Cooldown>, clock: Instant, a: Addr)
    requires Remembered(log, cooldowns, clock) && (a in cooldowns ==> cooldowns[a].until <= clock)
    ensures Remembered(log, cooldowns - {a}, clock)
  {
  }

  // ---------- moves ----------

  /** Give a candidate its turn at a time. */
  function Scheduled(b: Book, a: Addr, at: Instant): Book {
    if a !in b.nodes then b
    else
      var key := DueKey(at, b.sequence + 1, a);
      b.(due := (if b.nodes[a].due.Some? then b.due - {b.nodes[a].due.value} else b.due) + {key},
         sequence := b.sequence + 1, nodes := b.nodes[a := b.nodes[a].(due := Some(key))])
  }

  /** Drop a candidate and its key. */
  function Dropped(b: Book, a: Addr): Book {
    if a !in b.nodes then b
    else b.(nodes := b.nodes - {a}, due := if b.nodes[a].due.Some? then b.due - {b.nodes[a].due.value} else b.due)
  }

  /** Leave an endpoint alone until a time. */
  function Cooled(b: Book, a: Addr, until: Instant): Book {
    if a !in b.nodes then b
    else
      var d := Dropped(b, a);
      d.(cooldowns := d.cooldowns[a := Cooldown(b.nodes[a].node, until)], wakes := d.wakes + {Wake(until, a)})
  }

  function Woken(b: Book, a: Addr): Book {
    if a !in b.cooldowns then b
    else b.(cooldowns := b.cooldowns - {a}, wakes := b.wakes - {Wake(b.cooldowns[a].until, a)})
  }

  /** A query leaves for the candidate with this key. */
  function Awaits(b: Book, key: DueKey, awaited: Awaited): Book
    requires key.addr in b.nodes
  {
    b.(due := b.due - {key}, nodes := b.nodes[key.addr := b.nodes[key.addr].(due := None)],
       pending := b.pending[key.addr := awaited])
  }

  predicate IsFirst(due: set<DueKey>, key: DueKey) {
    key in due && forall k :: k in due ==> key.at < k.at || (key.at == k.at && key.number <= k.number)
  }

  /** Take in a new candidate, in place of `victim` if there is one. */
  function Enrolled(b: Book, node: Node, victim: Option<DueKey>, now: Instant): Book {
    var room := if victim.Some? then Dropped(b, victim.value.addr) else b;
    Scheduled(room.(nodes := room.nodes[node.addr := Sample(node, None)]), node.addr, now)
  }

  /** The awaited endpoint answered or failed: it is no longer awaited and cools down, known by `node` now. */
  function Ended(b: Book, a: Addr, node: Node, until: Instant): Book
    requires a in b.nodes
  {
    Cooled(b.(pending := b.pending - {a}, nodes := b.nodes[a := b.nodes[a].(node := node)]), a, until)
  }

  lemma KeyedDropped(b: Book, a: Addr)
    requires Keyed(b.nodes, b.due, b.sequence)
    ensures Keyed(Dropped(b, a).nodes, Dropped(b, a).due, Dropped(b, a).sequence)
  {
  }

  lemma KeyedScheduled(b: Book, a: Addr, at: Instant)
    requires Keyed(b.nodes, b.due, b.sequence)
    ensures Keyed(Scheduled(b, a, at).nodes, Scheduled(b, a, at).due, Scheduled(b, a, at).sequence)
  {
  }

  lemma EnrolledParts(b: Book, node: Node, victim: Option<DueKey>, now: Instant)
    requires Keyed(b.nodes, b.due, b.sequence) && node.addr !in b.nodes && (victim.Some? ==> victim.value in b.due)
    ensures var r := Enrolled(b, node, victim, now);
      && Keyed(r.nodes, r.due, r.sequence) && r.pending == b.pending && r.cooldowns == b.cooldowns && r.wakes == b.wakes
      && |r.nodes| == |b.nodes| + (if victim.Some? then 0 else 1)
  {
    var room := if victim.Some? then Dropped(b, victim.value.addr) else b;
    if victim.Some? { VictimListed(b, victim.value); }
    hide Keyed;
    KeyedDropped(b, if victim.Some? then victim.value.addr else node.addr);
    SizeDrop(b.nodes, if victim.Some? then victim.value.addr else node.addr);
    var c := room.(nodes := room.nodes[node.addr := Sample(node, None)]);
    KeyedNewcomer(room, node);
    KeyedScheduled(c, node.addr, now);
    SizeAdd(room.nodes, node.addr, Sample(node, None));
    SizeAdd(c.nodes, node.addr, Scheduled(c, node.addr, now).nodes[node.addr]);
  }

  lemma VictimListed(b: Book, key: DueKey)
    requires Keyed(b.nodes, b.due, b.sequence) && key in b.due
    ensures key.addr in b.nodes && b.nodes[key.addr].due == Some(key)
  {
  }

  lemma KeyedNewcomer(b: Book, node: Node)
    requires Keyed(b.nodes, b.due, b.sequence) && node.addr !in b.nodes
    ensures Keyed(b.nodes[node.addr := Sample(node, None)], b.due, b.sequence)
  {
  }

  lemma EnrolledNodes(b: Book, node: Node, victim: Option<DueKey>, now: Instant)
    requires Keyed(b.nodes, b.due, b.sequence) && node.addr !in b.nodes && (victim.Some? ==> victim.value in b.due)
    requires Awaiting(b.nodes, b.pending) && Apart(b) && node.addr !in b.cooldowns && Filed(b)
    ensures Awaiting(Enrolled(b, node, victim, now).nodes, b.pending) && Apart(Enrolled(b, node, victim, now))
    ensures Filed(Enrolled(b, node, victim, now))
  {
  }

  lemma TidyEnrolled(b: Book, node: Node, victim: Option<DueKey>, now: Instant, o: Options)
    requires Tidy(b, o) && node.addr !in b.nodes && node.addr !in b.cooldowns
    requires if |b.nodes| >= AtLeastOne(o.maxNodes) then victim.Some? && victim.value in b.due else victim.None?
    ensures Tidy(Enrolled(b, node, victim, now), o)
  {
    hide Keyed, Awaiting, Cooling, Apart, Filed, Enrolled;
    EnrolledParts(b, node, victim, now);
    EnrolledNodes(b, node, victim, now);
  }

  lemma CooledSets(b: Book, a: Addr, until: Instant)
    requires Cooling(b.cooldowns, b.wakes) && Apart(b) && a in b.nodes
    ensures Cooling(Cooled(b, a, until).cooldowns, Cooled(b, a, until).wakes) && Apart(Cooled(b, a, until))
    ensures |Cooled(b, a, until).cooldowns| == |b.cooldowns| + 1 && |Cooled(b, a, until).nodes| == |b.nodes| - 1
  {
    SizeDrop(b.nodes, a);
    SizeAdd(b.cooldowns, a, Cooldown(b.nodes[a].node, until));
  }

  lemma TidyCooled(b: Book, a: Addr, until: Instant, o: Options)
    requires Tidy(b, o) && a in b.nodes && b.nodes[a].due.Some?
    requires |b.cooldowns| + |b.pending| < AtLeastOne(o.cooldownCapacity)
    ensures Tidy(Cooled(b, a, until), o)
  {
    hide Keyed, Cooling, Apart, Awaiting, Filed;
    KeyedDropped(b, a);
    CooledSets(b, a, until);
    CooledNodes(b, a, until);
  }

  lemma CooledNodes(b: Book, a: Addr, until: Instant)
    requires Awaiting(b.nodes, b.pending) && Filed(b) && a in b.nodes && (b.nodes[a].due.Some? || a !in b.pending)
    ensures Filed(Cooled(b, a, until))
    ensures b.nodes[a].due.Some? ==> Awaiting(Cooled(b, a, until).nodes, b.pending)
  {
  }

  /** The book once an endpoint is no longer awaited. */
  function Unawaited(b: Book, a: Addr, node: Node): Book
    requires a in b.nodes
  {
    b.(pending := b.pending - {a}, nodes := b.nodes[a := b.nodes[a].(node := node)])
  }

  lemma UnawaitedParts(b: Book, a: Addr, node: Node)
    requires Keyed(b.nodes, b.due, b.sequence) && Apart(b) && a in b.nodes
    ensures Keyed(Unawaited(b, a, node).nodes, b.due, b.sequence) && Apart(Unawaited(b, a, node))
    ensures |Unawaited(b, a, node).nodes| == |b.nodes|
    ensures |Unawaited(b, a, node).pending| == |b.pending| - (if a in b.pending then 1 else 0)
  {
    hide Keyed;
    KeyedRefreshed(b.nodes, b.due, b.sequence, a, node);
    SizeDrop(b.pending, a);
    SizeAdd(b.nodes, a, b.nodes[a].(node := node));
  }

  lemma KeyedRefreshed(nodes: map<Addr, Sample>, due: set<DueKey>, sequence: nat, a: Addr, node: Node)
    requires Keyed(nodes, due, sequence) && a in nodes
    ensures Keyed(nodes[a := nodes[a].(node := node)], due, sequence)
  {
  }

  lemma AwaitedWarm(b: Book, a: Addr)
    requires Awaiting(b.nodes, b.pending) && Apart(b) && a in b.pending
    ensures a in b.nodes && a !in b.cooldowns
  {
  }

  lemma EndedFiled(b: Book, a: Addr, node: Node, until: Instant)
    requires Filed(b) && a in b.nodes && node.addr == a
    ensures Filed(Ended(b, a, node, until))
  {
  }

  lemma EndedAwaiting(b: Book, a: Addr, node: Node, until: Instant)
    requires Awaiting(b.nodes, b.pending) && a in b.pending
    ensures a in b.nodes && Awaiting(Ended(b, a, node, until).nodes, Ended(b, a, node, until).pending)
  {
  }

  lemma TidyEnded(b: Book, a: Addr, node: Node, until: Instant, o: Options)
    requires Tidy(b, o) && a in b.pending && node.addr == a
    ensures a in b.nodes && a !in b.cooldowns && Tidy(Ended(b, a, node, until), o)
    ensures Ended(b, a, node, until).cooldowns == b.cooldowns[a := Cooldown(node, until)]
  {
    AwaitedWarm(b, a);
    hide Keyed, Cooling, Awaiting, Apart, Filed;
    EndedAwaiting(b, a, node, until);
    EndedFiled(b, a, node, until);
    UnawaitedParts(b, a, node);
    KeyedDropped(Unawaited(b, a, node), a);
    CooledSets(Unawaited(b, a, node), a, until);
  }

  lemma TidyWoken(b: Book, a: Addr, o: Options)
    requires Tidy(b, o)
    ensures Tidy(Woken(b, a), o) && a !in Woken(b, a).cooldowns
  {
    hide Keyed, Awaiting;
    SizeDrop(b.cooldowns, a);
  }

  lemma TidyAwaits(b: Book, key: DueKey, awaited: Awaited, o: Options)
    requires Tidy(b, o) && key in b.due && |b.cooldowns| + |b.pending| < AtLeastOne(o.cooldownCapacity)
    requires |b.pending| < o.maxInFlight
    ensures key.addr in b.nodes && key.addr !in b.cooldowns && Tidy(Awaits(b, key, awaited), o)
  {
    AwaitsKeyed(b, key, awaited);
    AwaitsFits(b, key, awaited, o);
    AwaitsAwaiting(b, key, awaited);
    hide Cooling, Keyed, Awaiting, Fits;
  }

  lemma AwaitsFits(b: Book, key: DueKey, awaited: Awaited, o: Options)
    requires Fits(b, o) && key.addr in b.nodes && |b.cooldowns| + |b.pending| < AtLeastOne(o.cooldownCapacity)
    requires |b.pending| < o.maxInFlight
    ensures Fits(Awaits(b, key, awaited), o)
  {
    SizeAdd(b.pending, key.addr, awaited);
    SizeAdd(b.nodes, key.addr, b.nodes[key.addr].(due := None));
  }

  lemma AwaitsAwaiting(b: Book, key: DueKey, awaited: Awaited)
    requires Awaiting(b.nodes, b.pending) && key.addr in b.nodes
    ensures Awaiting(Awaits(b, key, awaited).nodes, Awaits(b, key, awaited).pending)
  {
  }

  lemma AwaitsKeyed(b: Book, key: DueKey, awaited: Awaited)
    requires Keyed(b.nodes, b.due, b.sequence) && key in b.due
    ensures key.addr in b.nodes && Keyed(Awaits(b, key, awaited).nodes, b.due - {key}, b.sequence)
  {
  }

  lemma TidyRenamed(b: Book, node: Node, o: Options)
    requires Tidy(b, o) && node.addr in b.nodes
    ensures Tidy(b.(nodes := b.nodes[node.addr := b.nodes[node.addr].(node := node)]), o)
  {
    hide Cooling, Keyed, Awaiting, Apart, Filed;
    RenamedKeys(b, node);
    RenamedNodes(b, node);
    SizeAdd(b.nodes, node.addr, b.nodes[node.addr].(node := node));
  }

  lemma RenamedKeys(b: Book, node: Node)
    requires Keyed(b.nodes, b.due, b.sequence) && node.addr in b.nodes
    ensures Keyed(b.nodes[node.addr := b.nodes[node.addr].(node := node)], b.due, b.sequence)
  {
  }

  lemma RenamedNodes(b: Book, node: Node)
    requires Awaiting(b.nodes, b.pending) && Apart(b) && Filed(b) && node.addr in b.nodes
    ensures var after := b.(nodes := b.nodes[node.addr := b.nodes[node.addr].(node := node)]);
      Awaiting(after.nodes, after.pending) && Apart(after) && Filed(after)
  {
  }

  // ---------- replies ----------

  /** A reply: the sender's identity if it is well formed, the interval it asks for, the length of its samples, the
      number of hashes it claims to store, and how many of its samples are new here. */
  datatype Reply = Unsupported | Reply(id: Option<NodeId>, interval: nat, samples: nat, num: nat, novel: nat)

  predicate Malformed(r: Reply)
    requires r.Reply?
  {
    r.id.None? || r.interval > MAX_REMOTE_INTERVAL || r.samples % 20 != 0 || r.samples / 20 > r.num
  }

  /** For how many seconds an endpoint is left alone after a reply. */
  function CoolSeconds(r: Reply, o: Options): nat {
    var failure := AtLeastOne(o.failureBackoffSecs);
    if r.Unsupported? then failure
    else if Malformed(r) then Longer(failure, if r.interval < MAX_REMOTE_INTERVAL then r.interval
                                              else MAX_REMOTE_INTERVAL)
    else
      var wait := AtLeastOne(Longer(r.interval, o.minIntervalSecs));
      if r.novel == 0 && r.samples / 20 <= MAX_SAMPLES_PER_RESPONSE then Longer(wait, o.noNewBackoffSecs) else wait
  }

  /** The interval an endpoint asks for is honoured, up to the longest the protocol allows, whether or not the rest
      of its reply makes sense; and no endpoint is asked again within a second. */
  lemma IntervalHonoured(r: Reply, o: Options)
    ensures CoolSeconds(r, o) >= 1
    ensures r.Reply? ==>
      CoolSeconds(r, o) >= if r.interval < MAX_REMOTE_INTERVAL then r.interval else MAX_REMOTE_INTERVAL
  {
  }

  /** Whether an endpoint is to be left alone for that long after its reply: in any case for a second; after an error
      for as long as after a failure, and after a malformed reply also for the interval it asked for, six hours at most;
      and after a sound reply for the interval it asked for and the least interval, and longer if it brought nothing
      new. */
  predicate Enough(seconds: nat, r: Reply, o: Options) {
    && seconds >= 1
    && (if r.Unsupported? then seconds >= o.failureBackoffSecs
        else if r.id.None? || r.interval > MAX_REMOTE_INTERVAL || r.samples % 20 != 0 || r.samples / 20 > r.num then
          seconds >= o.failureBackoffSecs && (seconds >= r.interval || seconds >= MAX_REMOTE_INTERVAL)
        else
          && seconds >= r.interval && seconds >= o.minIntervalSecs
          && (r.novel == 0 && r.samples / 20 <= MAX_SAMPLES_PER_RESPONSE ==> seconds >= o.noNewBackoffSecs))
  }

  /** The pause after a reply is the shortest that is long enough. */
  lemma CoolLeast(r: Reply, o: Options, seconds: nat)
    ensures Enough(CoolSeconds(r, o), r, o)
    ensures Enough(seconds, r, o) ==> CoolSeconds(r, o) <= seconds
  {
  }

  // ---------- the actor ----------

  predicate Allowed(a: Addr, mode: NetMode) {
    match mode
    case Ipv4Only => a.V4?
    case Ipv6Only => a.V6?
    case DualStack => true
  }

  /** What offering a node does: nothing while it cools down; else it becomes a candidate, or its identity is
      refreshed, or a candidate whose turn has come makes room, or there is no room. */
  ghost predicate AdmitStep(before: Book, after: Book, node: Node, now: Instant, o: Options, mode: NetMode,
                            victim: Option<DueKey>) {
    if !IsValidNodeAddr(node.addr) || !Allowed(node.addr, mode) ||
       (node.addr in before.cooldowns && before.cooldowns[node.addr].until > now) then after == before
    else
      EnterStep(Woken(before, node.addr), after, node, now, o, victim)
  }

  ghost predicate Sane(b: Book, log: seq<Contact>, clock: Instant, o: Options) {
    Tidy(b, o) && Polite(log) && Remembered(log, b.cooldowns, clock)
  }

  lemma SaneWait(b: Book, log: seq<Contact>, clock: Instant, now: Instant, o: Options)
    requires Sane(b, log, clock, o) && clock <= now
    ensures Sane(b, log, now, o)
  {
    hide Tidy, Polite;
    Wait(log, b.cooldowns, clock, now);
  }

  lemma SaneWoken(b: Book, log: seq<Contact>, clock: Instant, o: Options, a: Addr)
    requires Sane(b, log, clock, o) && (a in b.cooldowns ==> b.cooldowns[a].until <= clock)
    ensures Sane(Woken(b, a), log, clock, o) && a !in Woken(b, a).cooldowns
  {
    hide Tidy, Polite, Remembered;
    TidyWoken(b, a, o);
    Forget(log, b.cooldowns, clock, a);
    assert a !in b.cooldowns ==> b.cooldowns - {a} == b.cooldowns;
  }

  lemma SaneEnrolled(b: Book, log: seq<Contact>, clock: Instant, o: Options, node: Node, victim: Option<DueKey>)
    requires Sane(b, log, clock, o) && node.addr !in b.nodes && node.addr !in b.cooldowns
    requires if |b.nodes| >= AtLeastOne(o.maxNodes) then victim.Some? && victim.value in b.due else victim.None?
    ensures Sane(Enrolled(b, node, victim, clock), log, clock, o)
  {
    hide Tidy, Polite, Remembered;
    TidyEnrolled(b, node, victim, clock, o);
  }

  lemma SaneRenamed(b: Book, log: seq<Contact>, clock: Instant, o: Options, node: Node)
    requires Sane(b, log, clock, o) && node.addr in b.nodes
    ensures Sane(b.(nodes := b.nodes[node.addr := b.nodes[node.addr].(node := node)]), log, clock, o)
  {
    hide Tidy, Polite, Remembered;
    TidyRenamed(b, node, o);
  }

  lemma SaneEnded(b: Book, log: seq<Contact>, clock: Instant, o: Options, a: Addr, node: Node, until: Instant)
    requires Sane(b, log, clock, o) && a in b.pending && node.addr == a
    ensures a in b.nodes && Sane(Ended(b, a, node, until), log + [Told(a, until)], clock, o)
  {
    hide Tidy, Polite, Remembered;
    TidyEnded(b, a, node, until, o);
    Tell(log, b.cooldowns, clock, a, Cooldown(node, until));
  }

  lemma AskedIsAwaited(b: Book, key: DueKey, awaited: Awaited, until: Instant)
    requires key.addr in b.nodes
    ensures key.addr in Awaits(b, key, awaited).pending
    ensures key.addr in Cooled(b, key.addr, until).pending <==> key.addr in b.pending
  {
  }

  lemma DueNotAwaited(b: Book, log: seq<Contact>, clock: Instant, o: Options, key: DueKey)
    requires Sane(b, log, clock, o) && key in b.due
    ensures key.addr !in b.pending
  {
    hide Cooling, Polite, Remembered;
  }

  lemma SaneAsked(b: Book, log: seq<Contact>, clock: Instant, o: Options, key: DueKey)
    requires Sane(b, log, clock, o) && key in b.due
    ensures key.addr in b.nodes && b.nodes[key.addr].due == Some(key) && key.addr !in b.cooldowns
    ensures Sane(b, log + [Asked(key.addr, clock)], clock, o)
  {
    assert key.addr in b.nodes && key.addr !in b.cooldowns;
    Ask(log, b.cooldowns, clock, key.addr);
  }

  lemma SaneAwaits(b: Book, log: seq<Contact>, clock: Instant, o: Options, key: DueKey, awaited: Awaited)
    requires Sane(b, log, clock, o) && key in b.due && |b.cooldowns| + |b.pending| < AtLeastOne(o.cooldownCapacity)
    requires |b.pending| < o.maxInFlight
    ensures key.addr in b.nodes && Sane(Awaits(b, key, awaited), log, clock, o)
  {
    hide Tidy, Polite, Remembered;
    TidyAwaits(b, key, awaited, o);
  }

  lemma SaneCooled(b: Book, log: seq<Contact>, clock: Instant, o: Options, a: Addr, until: Instant)
    requires Sane(b, log, clock, o) && a in b.nodes && b.nodes[a].due.Some?
    requires |b.cooldowns| + |b.pending| < AtLeastOne(o.cooldownCapacity)
    ensures Sane(Cooled(b, a, until), log + [Told(a, until)], clock, o)
  {
    assert a !in b.cooldowns;
    hide Tidy, Polite, Remembered;
    TidyCooled(b, a, until, o);
    Tell(log, b.cooldowns, clock, a, Cooldown(b.nodes[a].node, until));
  }

  lemma {:induction false} FirstExists(due: set<DueKey>) returns (key: DueKey)
    requires due != {}
    ensures IsFirst(due, key)
    decreases |due|
  {
    var x :| x in due;
    if y :| y in due && !(x.at < y.at || (x.at == y.at && x.number <= y.number)) {
      key := FirstExists(due - {x});
      assert key.at < y.at || (key.at == y.at && key.number <= y.number);
    } else {
      key := x;
    }
  }

  /** The next candidate whose turn has come. */
  method FirstDue(due: set<DueKey>, now: Instant) returns (key: Option<DueKey>)
    ensures if key.Some? then IsFirst(due, key.value) && key.value.at <= now else forall k :: k in due ==> k.at > now
  {
    if due == {} {
      return None;
    }
    ghost var first := FirstExists(due);
    var k :| k in due && forall j :: j in due ==> k.at < j.at || (k.at == j.at && k.number <= j.number);
    key := if k.at <= now then Some(k) else None;
  }

  /** The wake-up that comes first: by time, then by endpoint. */
  predicate IsFirstWake(wakes: set<Wake>, w: Wake) {
    w in wakes && forall x :: x in wakes ==> w.until < x.until || (w.until == x.until && AddrLe(w.addr, x.addr))
  }

  lemma {:induction false} EarliestExists(wakes: set<Wake>) returns (w: Wake)
    requires wakes != {}
    ensures IsFirstWake(wakes, w)
    decreases |wakes|
  {
    var x :| x in wakes;
    if wakes == {x} {
      w := x;
    } else {
      assert wakes - {x} != {};
      var y := EarliestExists(wakes - {x});
      AddrTotal(x.addr, y.addr);
      w := if x.until < y.until || (x.until == y.until && AddrLe(x.addr, y.addr)) then x else y;
      forall z | z in wakes ensures w.until < z.until || (w.until == z.until && AddrLe(w.addr, z.addr)) {
        if z != x && w == x { AddrLeThrough(x.addr, y.addr, z.addr); }
      }
    }
  }

  lemma AddrLeThrough(x: Addr, y: Addr, z: Addr)
    ensures AddrLe(x, y) && AddrLe(y, z) ==> AddrLe(x, z)
  {
    if AddrLess(x, y) && AddrLess(y, z) { AddrTransitive(x, y, z); }
  }

  /** The next cooldown that is over. */
  method FirstWake(wakes: set<Wake>, now: Instant) returns (w: Option<Wake>)
    ensures if w.Some? then IsFirstWake(wakes, w.value) && w.value.until <= now
            else forall x :: x in wakes ==> x.until > now
  {
    if wakes == {} {
      return None;
    }
    ghost var first := EarliestExists(wakes);
    var k :| k in wakes && forall x :: x in wakes ==>
      k.until < x.until || (k.until == x.until && AddrLe(k.addr, x.addr));
    w := if k.until <= now then Some(k) else None;
  }

  // ---------- the steps of a tick ----------

  /** The first cooldown that is over ends, and its node is offered again. */
  ghost predicate WakeStep(b: Book, after: Book, w: Wake, now: Instant, o: Options, mode: NetMode,
                           victim: Option<DueKey>) {
    && IsFirstWake(b.wakes, w) && w.until <= now && w.addr in b.cooldowns
    && AdmitStep(b.(wakes := b.wakes - {w}, cooldowns := b.cooldowns - {w.addr}), after, b.cooldowns[w.addr].node,
                 now, o, mode, victim)
  }

  /** The books before and after each of several wake-ups, and whom each displaced. */
  datatype WakeRun = WakeRun(books: seq<Book>, wakes: seq<Wake>, victims: seq<Option<DueKey>>)

  ghost predicate WakesUp(run: WakeRun, before: Book, after: Book, now: Instant, o: Options, mode: NetMode) {
    && |run.books| == |run.wakes| + 1 && |run.victims| == |run.wakes|
    && run.books[0] == before && run.books[|run.wakes|] == after
    && forall i :: 0 <= i < |run.wakes| ==>
         WakeStep(run.books[i], run.books[i + 1], run.wakes[i], now, o, mode, run.victims[i])
  }

  lemma WakesUpMore(run: WakeRun, before: Book, mid: Book, after: Book, w: Wake, victim: Option<DueKey>, now: Instant,
                    o: Options, mode: NetMode)
    requires WakesUp(run, before, mid, now, o, mode) && WakeStep(mid, after, w, now, o, mode, victim)
    ensures WakesUp(WakeRun(run.books + [after], run.wakes + [w], run.victims + [victim]), before, after, now, o, mode)
  {
    hide WakeStep;
  }

  /** No reply is overdue. */
  ghost predicate Current(b: Book, now: Instant) {
    forall a :: a in b.pending ==> b.pending[a].deadline > now
  }

  /** The endpoints whose replies are overdue. */
  function Overdue(b: Book, now: Instant): set<Addr> {
    set a | a in b.pending && b.pending[a].deadline <= now
  }

  /** The same cooldown for several endpoints. */
  function CoolTogether(nodes: map<Addr, Sample>, addrs: set<Addr>, until: Instant): map<Addr, Cooldown> {
    map a | a in nodes && a in addrs :: Cooldown(nodes[a].node, until)
  }

  lemma CoolOne(nodes: map<Addr, Sample>, addrs: set<Addr>, until: Instant, a: Addr)
    requires a in nodes && a in addrs
    ensures CoolTogether(nodes, addrs, until) ==
      CoolTogether(nodes - {a}, addrs - {a}, until)[a := Cooldown(nodes[a].node, until)]
    ensures a !in CoolTogether(nodes - {a}, addrs - {a}, until)
  {
  }

  lemma AddFirst(m: map<Addr, Cooldown>, more: map<Addr, Cooldown>, a: Addr, c: Cooldown)
    requires a !in more
    ensures m[a := c] + more == m + more[a := c]
  {
  }

  /** Every overdue endpoint is given up on and cools down. */
  function GivenUp(b: Book, now: Instant, until: Instant): Book {
    b.(nodes := b.nodes - Overdue(b, now), pending := b.pending - Overdue(b, now),
       cooldowns := b.cooldowns + CoolTogether(b.nodes, Overdue(b, now), until),
       wakes := b.wakes + set a | a in Overdue(b, now) :: Wake(until, a))
  }

  lemma GivenUpNone(b: Book, now: Instant, until: Instant)
    requires Overdue(b, now) == {}
    ensures GivenUp(b, now, until) == b
  {
  }

  /** Giving up on one of the endpoints and then on the rest is giving up on all. */
  lemma GivenUpOne(b: Book, a: Addr, now: Instant, until: Instant)
    requires a in Overdue(b, now) && a in b.nodes && b.nodes[a].due.None?
    ensures var c := Ended(b, a, b.nodes[a].node, until);
      Overdue(c, now) == Overdue(b, now) - {a} && GivenUp(c, now, until) == GivenUp(b, now, until)
  {
    EndedKeyless(b, a, until);
    var c := Ended(b, a, b.nodes[a].node, until);
    hide Ended;
    assert Overdue(c, now) == Overdue(b, now) - {a};
    GivenUpMaps(b, c, a, now, until);
    assert GivenUp(c, now, until).wakes == GivenUp(b, now, until).wakes;
  }

  lemma EndedKeyless(b: Book, a: Addr, until: Instant)
    requires a in b.nodes && b.nodes[a].due.None?
    ensures var c := Ended(b, a, b.nodes[a].node, until);
      && c == b.(pending := c.pending, nodes := c.nodes, cooldowns := c.cooldowns, wakes := c.wakes)
      && c.pending == b.pending - {a} && c.nodes == b.nodes - {a} && c.wakes == b.wakes + {Wake(until, a)}
      && c.cooldowns == b.cooldowns[a := Cooldown(b.nodes[a].node, until)]
  {
  }

  lemma GivenUpMaps(b: Book, c: Book, a: Addr, now: Instant, until: Instant)
    requires a in b.nodes && a in Overdue(b, now) && Overdue(c, now) == Overdue(b, now) - {a}
    requires c.pending == b.pending - {a} && c.nodes == b.nodes - {a}
    requires c.cooldowns == b.cooldowns[a := Cooldown(b.nodes[a].node, until)]
    ensures GivenUp(c, now, until).nodes == GivenUp(b, now, until).nodes
    ensures GivenUp(c, now, until).pending == GivenUp(b, now, until).pending
    ensures GivenUp(c, now, until).cooldowns == GivenUp(b, now, until).cooldowns
  {
    hide Overdue, CoolTogether;
    var late := Overdue(b, now);
    LessMore(b.nodes, a, late);
    LessMore(b.pending, a, late);
    CoolOne(b.nodes, late, until, a);
    AddFirst(b.cooldowns, CoolTogether(c.nodes, late - {a}, until), a, Cooldown(b.nodes[a].node, until));
  }

  lemma LessMore<V>(m: map<Addr, V>, a: Addr, late: set<Addr>)
    requires a in late
    ensures (m - {a}) - (late - {a}) == m - late
  {
  }

  lemma GivenUpCurrent(b: Book, now: Instant, until: Instant)
    ensures Current(GivenUp(b, now, until), now)
  {
  }

  /** The books before and after each of several queries, and the keys of those asked. */
  datatype AskRun = AskRun(books: seq<Book>, keys: seq<DueKey>)

  /** A tick: the wake-ups and what they leave, those told to wait, the seeds offered and what they leave, and the
      queries. */
  datatype TickRun = TickRun(waking: WakeRun, awake: Book, told: seq<Contact>, admitting: AdmitRun, ready: Book,
                             asking: AskRun)

  /** Some of those overdue were given up on. */
  ghost predicate Giving(was: Book, b: Book, before: seq<Contact>, log: seq<Contact>, told: seq<Contact>,
                         done: set<Addr>, now: Instant, until: Instant) {
    && GivenUp(b, now, until) == GivenUp(was, now, until) && log == before + told && done !! Overdue(b, now)
    && Overdue(was, now) == done + Overdue(b, now) && ToldEach(told, done, until)
  }

  lemma GivingNone(b: Book, log: seq<Contact>, now: Instant, until: Instant)
    ensures Giving(b, b, log, log, [], {}, now, until)
  {
    hide GivenUp, Overdue;
    assert log + [] == log;
  }

  lemma OverdueIn(b: Book, a: Addr, now: Instant)
    requires a in b.pending && b.pending[a].deadline <= now
    ensures a in Overdue(b, now)
  {
  }

  lemma MoveOne(all: set<Addr>, done: set<Addr>, left: set<Addr>, a: Addr)
    requires all == done + left && done !! left && a in left
    ensures all == (done + {a}) + (left - {a}) && (done + {a}) !! (left - {a}) && a !in done
  {
  }

  lemma GivingMore(was: Book, b: Book, before: seq<Contact>, log: seq<Contact>, told: seq<Contact>, done: set<Addr>,
                   a: Addr, now: Instant, until: Instant)
    requires Giving(was, b, before, log, told, done, now, until)
    requires a in b.pending && b.pending[a].deadline <= now && a in b.nodes && b.nodes[a].due.None?
    ensures Giving(was, Ended(b, a, b.nodes[a].node, until), before, log + [Told(a, until)], told + [Told(a, until)],
                   done + {a}, now, until)
  {
    hide GivenUp, Overdue, ToldEach, Ended;
    OverdueIn(b, a, now);
    GivenUpOne(b, a, now, until);
    ToldMore(told, done, a, until);
    MoveOne(Overdue(was, now), done, Overdue(b, now), a);
    assert (before + told) + [Told(a, until)] == before + (told + [Told(a, until)]);
  }

  lemma GaveUp(was: Book, b: Book, before: seq<Contact>, log: seq<Contact>, told: seq<Contact>, done: set<Addr>,
               now: Instant, until: Instant)
    requires Giving(was, b, before, log, told, done, now, until)
    requires forall a :: a in b.pending ==> b.pending[a].deadline > now
    ensures b == GivenUp(was, now, until) && log == before + told && ToldEach(told, Overdue(was, now), until)
  {
    NoneLate(b, now);
    GivenUpNone(b, now, until);
    hide GivenUp, Overdue, ToldEach;
    assert done + {} == done;
  }

  lemma NoneLate(b: Book, now: Instant)
    requires forall a :: a in b.pending ==> b.pending[a].deadline > now
    ensures Overdue(b, now) == {}
  {
  }

  lemma ToldMore(part: seq<Contact>, addrs: set<Addr>, a: Addr, until: Instant)
    requires ToldEach(part, addrs, until) && a !in addrs
    ensures ToldEach(part + [Told(a, until)], addrs + {a}, until)
  {
  }

  /** Each of the endpoints is told once to wait until then. */
  ghost predicate ToldEach(part: seq<Contact>, addrs: set<Addr>, until: Instant) {
    && |part| == |addrs| && (forall a :: a in addrs ==> Told(a, until) in part)
    && (forall c :: c in part ==> c == Told(c.addr, until) && c.addr in addrs)
  }

  class DiscoveryActor {
    const options: Options
    const mode: NetMode
    const hasV4: bool
    const hasV6: bool
    /** Whether the query with a number leaves the socket, and how long that takes, as it turns out. */
    const delivery: nat -> (bool, nat)
    var nodes: map<Addr, Sample>
    var due: set<DueKey>
    var sequence: nat
    var pending: map<Addr, Awaited>
    var cooldowns: map<Addr, Cooldown>
    var wakes: set<Wake>
    var nextTid: nat
    var budget: Bucket
    /** Every query and every time set for an endpoint, in order. */
    ghost var log: seq<Contact>
    ghost var clock: Instant

    ghost function View(): Book
      reads this
    {
      Book(nodes, due, sequence, pending, cooldowns, wakes)
    }

    ghost predicate Valid()
      reads this
    {
      Sane(View(), log, clock, options) && budget.Valid()
    }

    constructor (o: Options, netmode: NetMode, v4: bool, v6: bool, sends: nat -> (bool, nat), now: Instant)
      ensures Valid() && log == [] && clock == now && options == o && mode == netmode
      ensures hasV4 == v4 && hasV6 == v6 && delivery == sends
      ensures View() == Book(map[], {}, 0, map[], map[], {})
      ensures budget == NewBucket(o.queriesPerSecond, o.burst, false, false, now)
    {
      options, mode, hasV4, hasV6, delivery := o, netmode, v4, v6, sends;
      nodes, due, sequence, pending, cooldowns, wakes, nextTid := map[], {}, 0, map[], map[], {}, 1;
      budget := NewBucket(o.queriesPerSecond, o.burst, false, false, now);
      log, clock := [], now;
    }

    /** Over every run: no endpoint is queried before the latest time that its own replies, errors and timeouts had
        set by then; endpoints awaited and cooling down stay within the history's capacity; the endpoints awaited
        are the candidates without a key; and no candidate is cooling down. */
    lemma Safety()
      requires Valid()
      ensures Polite(log) && |cooldowns| + |pending| <= AtLeastOne(options.cooldownCapacity)
      ensures forall a :: a in pending <==> a in nodes && nodes[a].due.None?
      ensures nodes.Keys !! cooldowns.Keys
    {
      hide Keyed, Cooling, Remembered, Polite;
    }

    /** Offer a node. */
    method AdmitNode(node: Node, now: Instant) returns (ghost victim: Option<DueKey>)
      requires Valid() && now == clock
      modifies this`nodes, this`due, this`sequence, this`cooldowns, this`wakes
      ensures Valid() && AdmitStep(old(View()), View(), node, now, options, mode, victim)
    {
      hide Sane, Enrolled, IsFirst, IsValidNodeAddr;
      victim := None;
      if !IsValidNodeAddr(node.addr) || !Allowed(node.addr, mode) {
        return;
      }
      if node.addr in cooldowns && cooldowns[node.addr].until > now {
        return;
      }
      SaneWoken(View(), log, clock, options, node.addr);
      if node.addr in cooldowns {
        wakes := wakes - {Wake(cooldowns[node.addr].until, node.addr)};
        cooldowns := cooldowns - {node.addr};
      }
      victim := EnterNode(node, now);
    }

    /** Refresh a candidate, or take in a new one. */
    method EnterNode(node: Node, now: Instant) returns (ghost victim: Option<DueKey>)
      requires Valid() && now == clock && node.addr !in cooldowns
      modifies this`nodes, this`due, this`sequence
      ensures Valid() && EnterStep(old(View()), View(), node, now, options, victim)
    {
      hide Sane, Enrolled, IsFirst;
      victim := None;
      if node.addr in nodes {
        SaneRenamed(View(), log, clock, options, node);
        nodes := nodes[node.addr := nodes[node.addr].(node := node)];
        return;
      }
      if |nodes| >= AtLeastOne(options.maxNodes) {
        var key := FirstDue(due, now);
        if key.None? {
          return;
        }
        FirstIn(due, key.value);
        DueNode(View(), log, clock, options, key.value);
        TakeIn(node, key, now);
        victim := key;
      } else {
        TakeIn(node, None, now);
      }
    }

    /** Take in a new candidate, in place of another if there is no room. */
    method TakeIn(node: Node, victim: Option<DueKey>, now: Instant)
      requires Valid() && now == clock && node.addr !in cooldowns && node.addr !in nodes
      requires if |nodes| >= AtLeastOne(options.maxNodes) then victim.Some? && victim.value in due else victim.None?
      requires victim.Some? ==> victim.value.addr in nodes && nodes[victim.value.addr].due == victim
      modifies this`nodes, this`due, this`sequence
      ensures Valid() && View() == Enrolled(old(View()), node, victim, now)
    {
      hide Sane, Enrolled;
      SaneEnrolled(View(), log, clock, options, node, victim);
      EnrolledIs(View(), node, victim, now);
      if victim.Some? {
        due := due - {victim.value};
        nodes := nodes - {victim.value.addr};
      }
      sequence := sequence + 1;
      due := due + {DueKey(now, sequence, node.addr)};
      nodes := nodes[node.addr := Sample(node, Some(DueKey(now, sequence, node.addr)))];
    }

    /** Offer several nodes, one after the other; an endpoint that cools down keeps its time. */
    method AdmitAll(offered: seq<Node>, now: Instant) returns (ghost run: AdmitRun)
      requires Valid() && now == clock
      modifies this`nodes, this`due, this`sequence, this`cooldowns, this`wakes
      ensures Valid() && KeptCool(old(cooldowns), cooldowns, now)
      ensures Admits(run, offered, old(View()), View(), now, options, mode)
    {
      hide Sane, AdmitStep, KeptCool;
      KeptSame(cooldowns, now);
      run := AdmitRun([View()], []);
      for i := 0 to |offered|
        invariant Valid() && KeptCool(old(cooldowns), cooldowns, now)
        invariant Admits(run, offered[..i], old(View()), View(), now, options, mode)
      {
        ghost var before := View();
        ghost var victim := AdmitNode(offered[i], now);
        AdmitKeeps(before, View(), offered[i], now, options, mode, victim);
        KeptAlong(old(cooldowns), before.cooldowns, cooldowns, now);
        assert offered[..i + 1] == offered[..i] + [offered[i]];
        AdmitsMore(run, offered[..i], old(View()), before, View(), offered[i], victim, now, options, mode);
        run := AdmitRun(run.books + [View()], run.victims + [victim]);
      }
      assert offered[..|offered|] == offered;
    }

    /** For how long an endpoint is left alone that did not answer or could not be asked. */
    function Pause(): nat {
      AtLeastOne(options.failureBackoffSecs) * SECONDS
    }

    /** Wake endpoints whose time has come, in order, until none is left or 256 are awake. */
    method WakeDue(now: Instant) returns (ghost run: WakeRun)
      requires Valid() && now == clock
      modifies this`nodes, this`due, this`sequence, this`cooldowns, this`wakes
      ensures Valid() && WakesUp(run, old(View()), View(), now, options, mode) && |run.wakes| <= 256
      ensures |run.wakes| == 256 || forall w :: w in wakes ==> w.until > now
    {
      hide Sane, WakeStep;
      run := WakeRun([View()], [], []);
      for i := 0 to 256
        invariant Valid() && WakesUp(run, old(View()), View(), now, options, mode) && |run.wakes| == i
      {
        var w := FirstWake(wakes, now);
        if w.None? {
          return;
        }
        ghost var before := View();
        ghost var victim := WakeOne(w.value, now);
        WakesUpMore(run, old(View()), before, View(), w.value, victim, now, options, mode);
        run := WakeRun(run.books + [View()], run.wakes + [w.value], run.victims + [victim]);
      }
    }

    /** End one endpoint's rest and offer it again. */
    method WakeOne(w: Wake, now: Instant) returns (ghost victim: Option<DueKey>)
      requires Valid() && now == clock && IsFirstWake(wakes, w) && w.until <= now
      modifies this`nodes, this`due, this`sequence, this`cooldowns, this`wakes
      ensures Valid() && WakeStep(old(View()), View(), w, now, options, mode, victim)
    {
      hide Sane, AdmitStep, IsFirstWake;
      FirstWakeIn(wakes, w);
      WakeNode(View(), log, clock, options, w);
      SaneWoken(View(), log, clock, options, w.addr);
      var node := cooldowns[w.addr].node;
      wakes := wakes - {w};
      cooldowns := cooldowns - {w.addr};
      victim := AdmitNode(node, now);
    }

    /** An awaited endpoint answered or ran out of time: leave it alone until `until`. */
    method EndAwaited(addr: Addr, node: Node, until: Instant)
      requires Valid() && addr in pending && node.addr == addr
      modifies this`nodes, this`due, this`pending, this`cooldowns, this`wakes, this`log
      ensures Valid() && addr in old(nodes) && View() == Ended(old(View()), addr, node, until)
      ensures log == old(log) + [Told(addr, until)] && cooldowns == old(cooldowns)[addr := Cooldown(node, until)]
      ensures pending == old(pending) - {addr}
    {
      hide Sane;
      SaneEnded(View(), log, clock, options, addr, node, until);
      AwaitedKeyless(View(), log, clock, options, addr);
      pending := pending - {addr};
      nodes := nodes[addr := nodes[addr].(node := node)];
      nodes := nodes - {addr};
      cooldowns := cooldowns[addr := Cooldown(node, until)];
      wakes := wakes + {Wake(until, addr)};
      log := log + [Told(addr, until)];
    }

    /** Give up on replies that are overdue. */
    method ExpirePending(now: Instant) returns (ghost told: seq<Contact>)
      requires Valid() && now == clock
      modifies this`nodes, this`due, this`pending, this`cooldowns, this`wakes, this`log
      ensures Valid() && View() == GivenUp(old(View()), now, now + Pause())
      ensures log == old(log) + told && ToldEach(told, Overdue(old(View()), now), now + Pause())
    {
      hide Sane, Giving, Ended, GivenUp, Overdue, ToldEach;
      told := [];
      ghost var done: set<Addr> := {};
      GivingNone(View(), log, now, now + Pause());
      while exists a :: a in pending && pending[a].deadline <= now
        invariant Valid() && Giving(old(View()), View(), old(log), log, told, done, now, now + Pause())
        decreases |pending|
      {
        var a :| a in pending && pending[a].deadline <= now;
        GiveUpOn(a, now, old(View()), old(log), told, done);
        told, done := told + [Told(a, now + Pause())], done + {a};
      }
      GaveUp(old(View()), View(), old(log), log, told, done, now, now + Pause());
    }

    method GiveUpOn(a: Addr, now: Instant, ghost was: Book, ghost before: seq<Contact>, ghost told: seq<Contact>,
                    ghost done: set<Addr>)
      requires Valid() && a in pending && pending[a].deadline <= now
      requires Giving(was, View(), before, log, told, done, now, now + Pause())
      modifies this`nodes, this`due, this`pending, this`cooldowns, this`wakes, this`log
      ensures Valid() && |pending| < |old(pending)|
      ensures Giving(was, View(), before, log, told + [Told(a, now + Pause())], done + {a}, now, now + Pause())
    {
      hide Sane, Giving, Ended;
      AwaitedKeyless(View(), log, clock, options, a);
      GivingMore(was, View(), before, log, told, done, a, now, now + Pause());
      SizeDrop(pending, a);
      EndAwaited(a, nodes[a].node, now + Pause());
    }

    /** The query with this number to this endpoint is sent. */
    predicate Departs(addr: Addr, tid: nat) {
      delivery(tid).0 && if addr.V4? then hasV4 else hasV6
    }

    /** When the answer to the query with this number is overdue. */
    function DeadlineOf(tid: nat, now: Instant): Instant {
      now + delivery(tid).1 + AtLeastOne(options.queryTimeoutSecs) * SECONDS
    }

    /** The first candidate whose turn it is was asked: it is awaited if the query left, and cools down if not. */
    ghost predicate AskStep(b: Book, after: Book, key: DueKey, tid: nat, now: Instant) {
      && IsFirst(b.due, key) && key.at <= now && key.addr in b.nodes
      && |b.pending| < options.maxInFlight && |b.cooldowns| + |b.pending| < AtLeastOne(options.cooldownCapacity)
      && after == if Departs(key.addr, tid) then Awaits(b, key, Awaited(tid, DeadlineOf(tid, now)))
                  else Cooled(b, key.addr, now + Pause())
    }

    /** What asking an endpoint adds to the history. */
    ghost function Asking(addr: Addr, tid: nat, now: Instant): seq<Contact> {
      [Asked(addr, now)] + if Departs(addr, tid) then [] else [Told(addr, now + Pause())]
    }

    /** Candidates were asked, one after the other and with consecutive numbers. */
    ghost predicate Asks(run: AskRun, before: Book, after: Book, tid: nat, now: Instant) {
      && |run.books| == |run.keys| + 1 && run.books[0] == before && run.books[|run.keys|] == after
      && forall i :: 0 <= i < |run.keys| ==> AskStep(run.books[i], run.books[i + 1], run.keys[i], tid + i, now)
    }

    ghost function AskingAll(keys: seq<DueKey>, tid: nat, now: Instant): seq<Contact> {
      if keys == [] then []
      else AskingAll(keys[..|keys| - 1], tid, now) + Asking(keys[|keys| - 1].addr, tid + |keys| - 1, now)
    }

    lemma AsksMore(run: AskRun, before: Book, mid: Book, after: Book, key: DueKey, tid: nat, now: Instant)
      requires Asks(run, before, mid, tid, now) && AskStep(mid, after, key, tid + |run.keys|, now)
      ensures Asks(AskRun(run.books + [after], run.keys + [key]), before, after, tid, now)
      ensures AskingAll(run.keys + [key], tid, now) ==
        AskingAll(run.keys, tid, now) + Asking(key.addr, tid + |run.keys|, now)
    {
      hide DiscoveryActor.AskStep, DiscoveryActor.Asking;
      assert (run.keys + [key])[..|run.keys|] == run.keys;
    }

    /** Why nobody more is asked: enough replies are awaited, the history is full, nobody's turn has come, or there is
        no token left. */
    ghost predicate AsksNoMore(now: Instant)
      requires budget.Valid()
      reads this
    {
      || |pending| >= options.maxInFlight || |cooldowns| + |pending| >= AtLeastOne(options.cooldownCapacity)
      || (forall k :: k in due ==> k.at > now) || budget.rate <= 0.0 || Level(budget, now) < 1.0
    }

    /** Ask the next candidate whose turn it is, if there is room to wait for it and to remember its answer. */
    method SendOne(now: Instant) returns (more: bool, ghost key: DueKey)
      requires Valid() && now == clock
      modifies this
      ensures Valid() && clock == now && budget.rate == old(budget).rate
      ensures Level(budget, now) == Level(old(budget), now) - (if more then 1.0 else 0.0)
      ensures if more
              then AskStep(old(View()), View(), key, old(nextTid), now) && nextTid == old(nextTid) + 1
                   && log == old(log) + Asking(key.addr, old(nextTid), now)
              else View() == old(View()) && log == old(log) && nextTid == old(nextTid) && AsksNoMore(now)
    {
      hide Sane, Awaits, Cooled, IsFirst, TakeExact, Level;
      if |pending| >= options.maxInFlight {
        return false, *;
      }
      var first := FirstDue(due, now);
      if first.None? || |cooldowns| + |pending| >= AtLeastOne(options.cooldownCapacity) {
        return false, *;
      }
      FirstIn(due, first.value);
      TakeExactLevel(budget, 1, now);
      var taken := TakeExact(budget, 1, now);
      budget := taken.0;
      if !taken.1 {
        return false, *;
      }
      Ask(first.value, now);
      return true, first.value;
    }

    /** Send a query to the candidate with this key. */
    method Ask(key: DueKey, now: Instant)
      requires Valid() && now == clock && key in due
      requires |pending| < options.maxInFlight && |cooldowns| + |pending| < AtLeastOne(options.cooldownCapacity)
      modifies this`nodes, this`due, this`pending, this`cooldowns, this`wakes, this`nextTid, this`log
      ensures Valid() && nextTid == old(nextTid) + 1 && log == old(log) + Asking(key.addr, old(nextTid), now)
      ensures key.addr in old(View()).nodes
      ensures View() == if Departs(key.addr, old(nextTid))
                        then Awaits(old(View()), key, Awaited(old(nextTid), DeadlineOf(old(nextTid), now)))
                        else Cooled(old(View()), key.addr, now + Pause())
      ensures key.addr in pending <==>
        delivery(old(nextTid)).0 && ((key.addr.V4? && hasV4) || (key.addr.V6? && hasV6))
    {
      hide Sane, Awaits, Cooled;
      DueNotAwaited(View(), log, clock, options, key);
      SaneAsked(View(), log, clock, options, key);
      AskedIsAwaited(View(), key, Awaited(nextTid, DeadlineOf(nextTid, now)), now + Pause());
      log := log + [Asked(key.addr, now)];
      if Departs(key.addr, nextTid) {
        Await(key, DeadlineOf(nextTid, now));
        assert [Asked(key.addr, now)] + [] == [Asked(key.addr, now)];
      } else {
        CoolOff(key, now + Pause());
        assert log == old(log) + ([Asked(key.addr, now)] + [Told(key.addr, now + Pause())]);
      }
    }

    method Await(key: DueKey, deadline: Instant)
      requires Valid() && key in due && |pending| < options.maxInFlight
      requires |cooldowns| + |pending| < AtLeastOne(options.cooldownCapacity)
      modifies this`nodes, this`due, this`pending, this`nextTid
      ensures Valid() && nextTid == old(nextTid) + 1 && key.addr in old(View()).nodes
      ensures View() == Awaits(old(View()), key, Awaited(old(nextTid), deadline))
    {
      hide Sane;
      SaneAwaits(View(), log, clock, options, key, Awaited(nextTid, deadline));
      nodes := nodes[key.addr := nodes[key.addr].(due := None)];
      pending := pending[key.addr := Awaited(nextTid, deadline)];
      due := due - {key};
      nextTid := nextTid + 1;
    }

    /** A query that could not be sent costs its endpoint a pause as well. */
    method CoolOff(key: DueKey, until: Instant)
      requires Valid() && key in due && |cooldowns| + |pending| < AtLeastOne(options.cooldownCapacity)
      modifies this`nodes, this`due, this`cooldowns, this`wakes, this`nextTid, this`log
      ensures Valid() && nextTid == old(nextTid) + 1 && log == old(log) + [Told(key.addr, until)]
      ensures View() == Cooled(old(View()), key.addr, until)
    {
      hide Sane, Cooled, AtLeastOne;
      ghost var b := View();
      DueNode(b, log, clock, options, key);
      SaneCooled(b, log, clock, options, key.addr, until);
      Shelve(key, until);
      log := log + [Told(key.addr, until)];
      nextTid := nextTid + 1;
    }

    /** Move a candidate whose turn it is to those that cool down. */
    method Shelve(key: DueKey, until: Instant)
      requires key.addr in View().nodes && View().nodes[key.addr].due == Some(key)
      modifies this`nodes, this`due, this`cooldowns, this`wakes
      ensures View() == Cooled(old(View()), key.addr, until)
    {
      cooldowns := cooldowns[key.addr := Cooldown(nodes[key.addr].node, until)];
      wakes := wakes + {Wake(until, key.addr)};
      nodes := nodes - {key.addr};
      due := due - {key};
    }

    /** A tick: wake, give up, take in seeds, and ask up to 64 candidates, as long as there is anyone to ask, room and a
        token for it. */
    method OnTick(now: Instant, seeds: seq<Node>) returns (ghost tick: TickRun)
      requires Valid() && clock <= now
      modifies this
      ensures Valid() && clock == now
      ensures WakesUp(tick.waking, old(View()), tick.awake, now, options, mode) && |tick.waking.wakes| <= 256
      ensures |tick.waking.wakes| == 256 || forall w :: w in tick.awake.wakes ==> w.until > now
      ensures Admits(tick.admitting, seeds, GivenUp(tick.awake, now, now + Pause()), tick.ready, now, options, mode)
      ensures Asks(tick.asking, tick.ready, View(), old(nextTid), now)
      ensures |tick.asking.keys| <= Burst() && (|tick.asking.keys| == Burst() || AsksNoMore(now))
      ensures Level(budget, now) == Level(old(budget), now) - |tick.asking.keys| as real
      ensures ToldEach(tick.told, Overdue(tick.awake, now), now + Pause())
      ensures log == old(log) + tick.told + AskingAll(tick.asking.keys, old(nextTid), now)
      ensures Current(View(), now)
    {
      hide Sane, KeptCool, GivenUp, Overdue, WakesUp, Admits, ToldEach, Level, DiscoveryActor.Asks,
           DiscoveryActor.AskingAll, DiscoveryActor.AsksNoMore, Current, AdmitStep;
      SaneWait(View(), log, clock, now, options);
      clock := now;
      ghost var waking := WakeDue(now);
      ghost var awake := View();
      ghost var told := ExpirePending(now);
      GivenUpCurrent(awake, now, now + Pause());
      ghost var before := View();
      ghost var admitting := AdmitAll(seeds, now);
      AdmitsPending(admitting, seeds, before, View(), now, options, mode);
      StillCurrent(before, View(), now);
      ghost var ready := View();
      ghost var asking := AskAll(now);
      tick := TickRun(waking, awake, told, admitting, ready, asking);
    }

    /** How many candidates a tick may ask. */
    function Burst(): (n: nat)
      ensures n <= 64 && n <= options.burst && (n == 64 || n == options.burst)
    {
      if options.burst < 64 then options.burst else 64
    }

    /** Ask candidates until as many were asked as allowed or nobody more can be. */
    method AskAll(now: Instant) returns (ghost run: AskRun)
      requires Valid() && now == clock && Current(View(), now)
      modifies this
      ensures Valid() && clock == now && Asks(run, old(View()), View(), old(nextTid), now)
      ensures |run.keys| <= Burst() && (|run.keys| == Burst() || AsksNoMore(now))
      ensures Level(budget, now) == Level(old(budget), now) - |run.keys| as real
      ensures log == old(log) + AskingAll(run.keys, old(nextTid), now) && Current(View(), now)
    {
      run := AskRun([View()], []);
      AskedNone(now);
      hide Sane, Level, DiscoveryActor.Asks, DiscoveryActor.AskingAll, DiscoveryActor.AsksNoMore,
           DiscoveryActor.HasAsked, Current;
      for i := 0 to Burst()
        invariant Valid() && clock == now && |run.keys| == i
        invariant HasAsked(run, old(View()), old(nextTid), old(log), Level(old(budget), now), now)
      {
        var more; ghost var next;
        more, next := AskMore(now, run, old(View()), old(nextTid), old(log), Level(old(budget), now));
        if !more {
          Polled(run, old(View()), old(nextTid), old(log), Level(old(budget), now), now);
          return;
        }
        run := next;
      }
      Polled(run, old(View()), old(nextTid), old(log), Level(old(budget), now), now);
    }

    /** Candidates were asked since the actor was like that. */
    ghost predicate HasAsked(run: AskRun, was: Book, tid: nat, before: seq<Contact>, level: real, now: Instant)
      requires budget.Valid()
      reads this
    {
      && Asks(run, was, View(), tid, now) && nextTid == tid + |run.keys| && Current(View(), now)
      && log == before + AskingAll(run.keys, tid, now) && Level(budget, now) == level - |run.keys| as real
    }

    lemma AskedNone(now: Instant)
      requires budget.Valid() && Current(View(), now)
      ensures HasAsked(AskRun([View()], []), View(), nextTid, log, Level(budget, now), now)
    {
      hide Level, Current;
      assert log + [] == log;
    }

    lemma Polled(run: AskRun, was: Book, tid: nat, before: seq<Contact>, level: real, now: Instant)
      requires budget.Valid() && HasAsked(run, was, tid, before, level, now)
      ensures Asks(run, was, View(), tid, now) && Current(View(), now)
      ensures log == before + AskingAll(run.keys, tid, now) && Level(budget, now) == level - |run.keys| as real
    {
    }

    method AskMore(now: Instant, ghost run: AskRun, ghost was: Book, ghost tid: nat, ghost before: seq<Contact>,
                   ghost level: real)
      returns (more: bool, ghost next: AskRun)
      requires Valid() && now == clock && HasAsked(run, was, tid, before, level, now)
      modifies this
      ensures Valid() && clock == now && HasAsked(next, was, tid, before, level, now)
      ensures if more then |next.keys| == |run.keys| + 1 else next == run && AsksNoMore(now)
    {
      hide Sane, Level, DiscoveryActor.Asks, DiscoveryActor.AskStep, DiscoveryActor.AskingAll, DiscoveryActor.Asking,
           DiscoveryActor.AsksNoMore, Current;
      ghost var b, key := View(), *;
      more, key := SendOne(now);
      next := run;
      if more {
        AskedLater(b, View(), key, tid + |run.keys|, now);
        AsksMore(run, was, b, View(), key, tid, now);
        assert (before + AskingAll(run.keys, tid, now)) + Asking(key.addr, tid + |run.keys|, now) ==
          before + (AskingAll(run.keys, tid, now) + Asking(key.addr, tid + |run.keys|, now));
        next := AskRun(run.books + [View()], run.keys + [key]);
      }
    }

    lemma AskedLater(b: Book, after: Book, key: DueKey, tid: nat, now: Instant)
      requires AskStep(b, after, key, tid, now) && Current(b, now)
      ensures Current(after, now)
    {
      hide IsFirst;
    }

    /** A reply. One that matches no awaited endpoint, number and deadline changes nothing. Any other sets the time
        before which its sender is not asked again; a sound one also names its sender and offers neighbours, none
        of which can undo that time. */
    method HandleResponse(addr: Addr, tid: nat, reply: Reply, neighbours: seq<Node>, now: Instant)
      returns (ghost run: AdmitRun)
      requires Valid() && clock <= now
      modifies this
      ensures Valid() && clock == now && nextTid == old(nextTid) && budget == old(budget)
      ensures var until := now + CoolSeconds(reply, options) * SECONDS;
        if addr in old(pending) && old(pending)[addr].tid == tid && old(pending)[addr].deadline > now
        then log == old(log) + [Told(addr, until)] && addr in cooldowns && cooldowns[addr].until == until
             && pending == old(pending) - {addr} && addr in old(nodes)
             && cooldowns[addr].node == NewName(old(nodes)[addr].node, reply)
             && Admits(run, if IsSound(reply) then FirstFew(neighbours) else [],
                       Ended(old(View()), addr, NewName(old(nodes)[addr].node, reply), until), View(), now, options,
                       mode)
        else View() == old(View()) && log == old(log)
    {
      hide Sane, Ended, KeptCool, Admits;
      run := AdmitRun([], []);
      SaneWait(View(), log, clock, now, options);
      clock := now;
      if !(addr in pending && pending[addr].tid == tid && pending[addr].deadline > now) {
        return;
      }
      AwaitedKeyless(View(), log, clock, options, addr);
      IntervalHonoured(reply, options);
      hide CoolSeconds, Malformed;
      var until := now + CoolSeconds(reply, options) * SECONDS;
      EndAwaited(addr, NewName(nodes[addr].node, reply), until);
      ghost var cool := cooldowns;
      var offered := if IsSound(reply) then FirstFew(neighbours) else [];
      run := AdmitAll(offered, now);
      KeptCoolAt(cool, cooldowns, addr, now);
    }
  }

  ghost predicate EnterStep(b: Book, after: Book, node: Node, now: Instant, o: Options, victim: Option<DueKey>) {
    if node.addr in b.nodes then after == b.(nodes := b.nodes[node.addr := b.nodes[node.addr].(node := node)])
    else if |b.nodes| < AtLeastOne(o.maxNodes) then after == Enrolled(b, node, None, now)
    else if victim.Some? then
      IsFirst(b.due, victim.value) && victim.value.at <= now && after == Enrolled(b, node, victim, now)
    else after == b && forall k :: k in b.due ==> k.at > now
  }

  lemma FirstWakeIn(wakes: set<Wake>, w: Wake)
    requires IsFirstWake(wakes, w)
    ensures w in wakes
  {
  }

  lemma FirstIn(due: set<DueKey>, key: DueKey)
    requires IsFirst(due, key)
    ensures key in due
  {
  }

  lemma DueNode(b: Book, log: seq<Contact>, clock: Instant, o: Options, key: DueKey)
    requires Sane(b, log, clock, o) && key in b.due
    ensures key.addr in b.nodes && b.nodes[key.addr].due == Some(key)
  {
  }

  lemma EnrolledIs(b: Book, node: Node, victim: Option<DueKey>, now: Instant)
    requires node.addr !in b.nodes
    requires victim.Some? ==> victim.value.addr in b.nodes && b.nodes[victim.value.addr].due == victim
    ensures var key := DueKey(now, b.sequence + 1, node.addr);
      Enrolled(b, node, victim, now) ==
      b.(nodes := (if victim.Some? then b.nodes - {victim.value.addr} else b.nodes)
                  [node.addr := Sample(node, Some(key))],
         due := (if victim.Some? then b.due - {victim.value} else b.due) + {key}, sequence := b.sequence + 1)
  {
    var rest := if victim.Some? then b.nodes - {victim.value.addr} else b.nodes;
    var key := DueKey(now, b.sequence + 1, node.addr);
    var placed: map<Addr, Sample> := rest[node.addr := Sample(node, None)];
    assert placed[node.addr := Sample(node, Some(key))] == rest[node.addr := Sample(node, Some(key))];
  }

  predicate IsSound(reply: Reply) {
    reply.Reply? && !Malformed(reply)
  }

  /** Of the neighbours a reply names, 64 are taken at most. */
  function FirstFew(neighbours: seq<Node>): (r: seq<Node>)
    ensures r <= neighbours && |r| <= 64 && (|r| == 64 || r == neighbours)
  {
    if |neighbours| < 64 then neighbours else neighbours[..64]
  }

  /** The identity a sound reply gives its sender. */
  function NewName(node: Node, reply: Reply): Node {
    if IsSound(reply) then node.(id := reply.id.value) else node
  }

  /** Cooldowns that are not over stay as they are. */
  ghost predicate KeptCool(before: map<Addr, Cooldown>, after: map<Addr, Cooldown>, now: Instant) {
    forall a :: a in before && before[a].until > now ==> a in after && after[a] == before[a]
  }

  /** The books before and after each of several offers, and whom each offer displaced. */
  datatype AdmitRun = AdmitRun(books: seq<Book>, victims: seq<Option<DueKey>>)

  ghost predicate Admits(run: AdmitRun, offered: seq<Node>, before: Book, after: Book, now: Instant, o: Options,
                         mode: NetMode) {
    && |run.books| == |offered| + 1 && |run.victims| == |offered|
    && run.books[0] == before && run.books[|offered|] == after
    && forall i :: 0 <= i < |offered| ==>
         AdmitStep(run.books[i], run.books[i + 1], offered[i], now, o, mode, run.victims[i])
  }

  lemma {:induction false} AdmitsPending(run: AdmitRun, offered: seq<Node>, before: Book, after: Book, now: Instant,
                                         o: Options, mode: NetMode)
    requires Admits(run, offered, before, after, now, o, mode)
    ensures after.pending == before.pending
    decreases |offered|
  {
    hide AdmitStep;
    if offered == [] {
    } else {
      var n := |offered| - 1;
      AdmitKeeps(run.books[n], run.books[n + 1], offered[n], now, o, mode, run.victims[n]);
      AdmitsPending(AdmitRun(run.books[..n + 1], run.victims[..n]), offered[..n], before, run.books[n], now, o, mode);
    }
  }

  lemma StillCurrent(before: Book, after: Book, now: Instant)
    requires Current(before, now) && after.pending == before.pending
    ensures Current(after, now)
  {
  }

  lemma AdmitsMore(run: AdmitRun, offered: seq<Node>, before: Book, mid: Book, after: Book, node: Node,
                   victim: Option<DueKey>, now: Instant, o: Options, mode: NetMode)
    requires Admits(run, offered, before, mid, now, o, mode) && AdmitStep(mid, after, node, now, o, mode, victim)
    ensures Admits(AdmitRun(run.books + [after], run.victims + [victim]), offered + [node], before, after, now, o, mode)
  {
    hide AdmitStep;
  }

  lemma KeptCoolAt(before: map<Addr, Cooldown>, after: map<Addr, Cooldown>, a: Addr, now: Instant)
    requires KeptCool(before, after, now) && a in before && before[a].until > now
    ensures a in after && after[a] == before[a]
  {
  }

  lemma KeptSame(cooldowns: map<Addr, Cooldown>, now: Instant)
    ensures KeptCool(cooldowns, cooldowns, now)
  {
  }

  lemma KeptAlong(a: map<Addr, Cooldown>, b: map<Addr, Cooldown>, c: map<Addr, Cooldown>, now: Instant)
    requires KeptCool(a, b, now) && KeptCool(b, c, now)
    ensures KeptCool(a, c, now)
  {
  }

  lemma AdmitKeeps(before: Book, after: Book, node: Node, now: Instant, o: Options, mode: NetMode,
                   victim: Option<DueKey>)
    requires AdmitStep(before, after, node, now, o, mode, victim)
    ensures KeptCool(before.cooldowns, after.cooldowns, now) && after.pending == before.pending
    ensures node.addr !in before.cooldowns ==> after.wakes == before.wakes
  {
    hide IsFirst, IsValidNodeAddr, EnterStep;
    if after != before { EnterKeeps(Woken(before, node.addr), after, node, now, o, victim); }
  }

  lemma EnterKeeps(b: Book, after: Book, node: Node, now: Instant, o: Options, victim: Option<DueKey>)
    requires EnterStep(b, after, node, now, o, victim)
    ensures after.cooldowns == b.cooldowns && after.pending == b.pending && after.wakes == b.wakes
  {
    hide IsFirst, Enrolled;
    EnrolledKeeps(b, node, victim, now);
    EnrolledKeeps(b, node, None, now);
  }

  lemma EnrolledKeeps(b: Book, node: Node, victim: Option<DueKey>, now: Instant)
    ensures Enrolled(b, node, victim, now).cooldowns == b.cooldowns
    ensures Enrolled(b, node, victim, now).pending == b.pending
    ensures Enrolled(b, node, victim, now).wakes == b.wakes
  {
  }

  lemma WakeNode(b: Book, log: seq<Contact>, clock: Instant, o: Options, w: Wake)
    requires Sane(b, log, clock, o) && w in b.wakes
    ensures w.addr in b.cooldowns && b.cooldowns[w.addr].until == w.until && b.cooldowns[w.addr].node.addr == w.addr
  {
  }

  lemma AwaitedKeyless(b: Book, log: seq<Contact>, clock: Instant, o: Options, a: Addr)
    requires Sane(b, log, clock, o) && a in b.pending
    ensures a in b.nodes && b.nodes[a].due.None? && b.nodes[a].node.addr == a
  {
  }
}
