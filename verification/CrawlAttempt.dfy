/** One attempt of the crawl actor to send a query, decided by the state that it finds; runs of attempts; and which
    endpoints lose the mark of a recent probe before its time. */
module CrawlAttempts {
  import opened Nodes
  import opened Budgets
  import opened RecentProbing
  import opened NodePools
  import opened Reservoirs
  import opened ProbeWindows
  import opened ProbeFunds
  import opened CrawlLedgers
  import opened CrawlStates

  const MAX_POOL_SCAN: nat := 256

  /** The crawler's own identity, the families that it has a channel for, whether there is room in a channel each time
      it comes to one, as it turns out, and how long a node rests between visits. */
  datatype Host = Host(id: NodeId, hasV4: bool, hasV6: bool, room: nat -> bool, interval: nat)

  /** What an attempt finds: the actor's books, the pool's queue, what is known of the reservoir's nodes, how often it
      has come to a channel, and the reservoir's schedules. */
  datatype Scene = Scene(view: Snapshot, queue: seq<Queued>, infos: map<Addr, Info>, polls: nat, ready: seq<nat>,
                         revisits: set<Key>)

  // ---------- what an attempt does ----------

  predicate HasChannel(addr: Addr, h: Host) {
    if addr.V4? then h.hasV4 else h.hasV6
  }

  ghost predicate BacksOff(addr: Addr, infos: map<Addr, Info>, now: Instant) {
    addr in infos && Blocked(infos[addr], now)
  }

  /** A request to the node would be sent if the channel of its family had room. */
  ghost predicate CanSend(node: Node, infos: map<Addr, Info>, d: Desk, now: Instant, h: Host, c: Config) {
    HasRoom(d, node, c) && !BacksOff(node.addr, infos, now) && HasChannel(node.addr, h)
  }

  /** A node of the pool may be asked: its subnet has room and it is not backing off. */
  ghost predicate Approachable(node: Node, infos: map<Addr, Info>, d: Desk, now: Instant, c: Config) {
    CountOf(d.subnets, SubnetOf(node.addr)) < c.maxPerSubnet && !BacksOff(node.addr, infos, now)
  }

  /** How many nodes of the pool are looked at. */
  function ScanLimit(queue: seq<Queued>): nat {
    if |queue| < MAX_POOL_SCAN then |queue| else MAX_POOL_SCAN
  }

  /** The first node from `from` on that may be asked, or the end of the scan. */
  ghost function FirstOpen(queue: seq<Queued>, infos: map<Addr, Info>, d: Desk, now: Instant, c: Config, from: nat)
    : (i: nat)
    requires from <= ScanLimit(queue)
    ensures from <= i <= ScanLimit(queue)
    decreases ScanLimit(queue) - from
  {
    if from == ScanLimit(queue) || Approachable(queue[from].node, infos, d, now, c) then from
    else FirstOpen(queue, infos, d, now, c, from + 1)
  }

  /** What an attempt comes to before any revisit: the bootstrap address is sent to, or cannot be paid for; the pool's
      next node is sent to, or is put back; or there is nothing to send to, and `index` nodes were passed over. */
  datatype Choice =
    | ToBootstrap
    | Unaffordable
    | ToHead(index: nat)
    | PutsBack(index: nat)
    | PassesOver(index: nat)

  /** What becomes of the pool's next node. */
  ghost function HeadChoice(s: Scene, room: bool, h: Host, c: Config): Choice {
    var i := FirstOpen(s.queue, s.infos, s.view.desk, s.view.clock, c, 0);
    if i == ScanLimit(s.queue) || !CanPay(s.view) then PassesOver(i)
    else if CanSend(s.queue[i].node, s.infos, s.view.desk, s.view.clock, h, c) && room then ToHead(i)
    else PutsBack(i)
  }

  ghost predicate TriesBootstrap(s: Scene, c: Config) {
    |s.queue| < c.lowWatermark && s.view.bootstrap != []
  }

  ghost predicate PaysBootstrap(s: Scene)
    requires s.view.bootstrap != []
  {
    s.view.bootstrap[0] in s.view.live || CanPay(s.view)
  }

  ghost predicate SendsBootstrap(s: Scene, room: bool, h: Host, c: Config)
    requires s.view.bootstrap != []
  {
    && PaysBootstrap(s) && room
    && CanSend(Node(h.id, s.view.bootstrap[0]), s.infos, s.view.desk, s.view.clock, h, c)
  }

  /** How often the attempt comes to a channel with the bootstrap address, and with the pool's next node. */
  ghost function BootstrapPolls(s: Scene, h: Host, c: Config): nat {
    if TriesBootstrap(s, c) && SendsBootstrap(s, true, h, c) then 1 else 0
  }

  ghost function HeadPolls(s: Scene, h: Host, c: Config): nat {
    if HeadChoice(s, true, h, c).ToHead? then 1 else 0
  }

  /** The attempt's course before any revisit: the state that it finds and the room in the channels decide. */
  ghost function Choose(s: Scene, h: Host, c: Config): Choice {
    if TriesBootstrap(s, c) && SendsBootstrap(s, h.room(s.polls), h, c) then ToBootstrap
    else if TriesBootstrap(s, c) && !PaysBootstrap(s) then Unaffordable
    else HeadChoice(s, h.room(s.polls + BootstrapPolls(s, h, c)), h, c)
  }

  /** How often the attempt has come to a channel when it comes to a revisit. */
  ghost function PollsBefore(s: Scene, h: Host, c: Config): nat {
    s.polls + BootstrapPolls(s, h, c) + if Choose(s, h, c).Unaffordable? then 0 else HeadPolls(s, h, c)
  }

  /** The pool's queue after the attempt. */
  ghost function QueueAfter(s: Scene, choice: Choice): seq<Queued> {
    match choice
    case ToBootstrap => s.queue
    case Unaffordable => s.queue
    case ToHead(i) => if i < |s.queue| then s.queue[i + 1..] + s.queue[..i] else s.queue
    case PutsBack(i) =>
      if i < |s.queue| then [Queued(s.queue[i].node, s.view.clock)] + s.queue[i + 1..] + s.queue[..i] else s.queue
    case PassesOver(i) => if i <= |s.queue| then s.queue[i..] + s.queue[..i] else s.queue
  }

  /** The attempt took that course. Whoever is not sent to by then may be followed by a revisit. */
  ghost predicate Follows(e: Attempt, s: Scene, choice: Choice, h: Host) {
    match choice
    case ToBootstrap =>
      && s.view.bootstrap != [] && e.target == Some(Node(h.id, s.view.bootstrap[0])) && e.purpose == Bootstrap
      && e.refused == None
    case Unaffordable => e.purpose == Revisit && e.refused == None
    case ToHead(i) =>
      i < |s.queue| && e.target == Some(s.queue[i].node) && e.purpose == New && e.refused == None
    case PutsBack(i) => i < |s.queue| && e.purpose == Revisit && e.refused == Some(s.queue[i].node)
    case PassesOver(_) => e.purpose == Revisit && e.refused == None
  }

  /** What the scan finds: nobody before may be asked, and whoever it stops at may. */
  lemma {:induction false} FirstOpenIs(queue: seq<Queued>, infos: map<Addr, Info>, d: Desk, now: Instant, c: Config,
                                       from: nat)
    requires from <= ScanLimit(queue)
    ensures var i := FirstOpen(queue, infos, d, now, c, from);
      && (forall j :: from <= j < i ==> !Approachable(queue[j].node, infos, d, now, c))
      && (i < ScanLimit(queue) ==> Approachable(queue[i].node, infos, d, now, c))
    decreases ScanLimit(queue) - from
  {
    hide Approachable;
    if from < ScanLimit(queue) && !Approachable(queue[from].node, infos, d, now, c) {
      FirstOpenIs(queue, infos, d, now, c, from + 1);
    }
  }

  /** What is known of the nodes once one of them is probed. */
  ghost function ProbedInfo(infos: map<Addr, Info>, a: Addr, now: Instant): map<Addr, Info> {
    if a in infos then infos[a := infos[a].(lastProbeAt := now)] else infos
  }

  /** What is known of the nodes after an attempt: expired ones may be gone, and the one queried was probed. */
  ghost predicate InfosAfter(before: map<Addr, Info>, after: map<Addr, Info>, target: Option<Node>, now: Instant) {
    && (forall a :: a in before && before[a].expiresAt > now ==> a in after)
    && (forall a :: a in after ==> a in before)
    && (forall a :: a in after ==>
          after[a] == if a in EndpointOf(target) then before[a].(lastProbeAt := now) else before[a])
  }

  /** A node is due for another visit: it has not expired, rested long enough and is past its backoff. */
  ghost predicate Revisitable(infos: map<Addr, Info>, node: Node, interval: nat, now: Instant) {
    && node.addr in infos && infos[node.addr].node == node && infos[node.addr].expiresAt > now
    && EligibleAt(infos[node.addr], interval) <= now
  }

  /** Nobody is due for another visit; or 256 expired nodes were dropped in the search. */
  ghost predicate NobodyDue(s: Scene, t: Scene) {
    || (t.ready == [] && forall k :: k in t.revisits ==> k.at > s.view.clock)
    || |t.infos| + 256 == |s.infos|
  }

  /** A node can be visited again: it is recent or can be paid for, and a request to it may leave. */
  ghost predicate CanRevisit(s: Scene, node: Node, refused: Option<Node>, h: Host, c: Config) {
    && (node.addr in s.view.live - EndpointOf(refused) || CanPay(s.view))
    && CanSend(node, s.infos, s.view.desk, s.view.clock, h, c)
  }

  /** The revisit that the attempt comes to at last: nobody is due; or the reservoir offers a node that is, and that
      node is queried if and only if it can be visited and the channel has room. */
  ghost predicate Revisits(s: Scene, t: Scene, e: Attempt, polls: nat, h: Host, c: Config) {
    match e.offered
    case None => e.target == None && t.polls == polls && NobodyDue(s, t)
    case Some(node) =>
      && Revisitable(s.infos, node, h.interval, s.view.clock)
      && t.polls == polls + (if CanRevisit(s, node, e.refused, h, c) then 1 else 0)
      && e.target == if CanRevisit(s, node, e.refused, h, c) && h.room(polls) then Some(node) else None
  }

  /** What the attempt leaves once its course is chosen, having come to a channel `polls` times by then. */
  ghost predicate Ends(s: Scene, t: Scene, e: Attempt, choice: Choice, polls: nat, h: Host, c: Config) {
    if choice.ToBootstrap? || choice.ToHead? then e.offered == None && t.polls == polls
    else Revisits(s, t, e, polls, h, c)
  }

  /** One attempt, from the state that it found to the state that it left. */
  ghost predicate Makes(s: Scene, t: Scene, e: Attempt, h: Host, c: Config) {
    && Attempted(s.view, t.view, e, c) && Follows(e, s, Choose(s, h, c), h)
    && t.queue == QueueAfter(s, Choose(s, h, c)) && InfosAfter(s.infos, t.infos, e.target, s.view.clock)
    && Ends(s, t, e, Choose(s, h, c), if Choose(s, h, c).ToBootstrap? then s.polls + 1 else PollsBefore(s, h, c), h, c)
  }

  /** Fewer requests are in flight than allowed. */
  ghost predicate HasSpace(s: Scene, c: Config) {
    |s.view.desk.pending| < c.maxInFlight
  }

  /** Attempts one after the other, each from the state that the one before it left, with space for one more request. */
  ghost predicate Makings(scenes: seq<Scene>, attempts: seq<Attempt>, h: Host, c: Config) {
    && |scenes| == |attempts| + 1
    && forall i :: 0 <= i < |attempts| ==> HasSpace(scenes[i], c) && Makes(scenes[i], scenes[i + 1], attempts[i], h, c)
  }

  lemma MakingsMore(scenes: seq<Scene>, attempts: seq<Attempt>, t: Scene, e: Attempt, h: Host, c: Config)
    requires Makings(scenes, attempts, h, c) && HasSpace(scenes[|attempts|], c)
    requires Makes(scenes[|attempts|], t, e, h, c)
    ensures Makings(scenes + [t], attempts + [e], h, c)
  {
    hide Makes, HasSpace;
    var longer, more := scenes + [t], attempts + [e];
    forall i | 0 <= i < |more| ensures HasSpace(longer[i], c) && Makes(longer[i], longer[i + 1], more[i], h, c) {
      if i < |attempts| {
        assert HasSpace(scenes[i], c) && Makes(scenes[i], scenes[i + 1], attempts[i], h, c);
      }
    }
  }

  /** The two differ at most in query tokens. */
  ghost predicate SameStage(s: Scene, t: Scene) {
    t == s.(view := s.view.(purse := s.view.purse.(query := t.view.purse.query, held := t.view.purse.held)))
  }

  lemma DrawsSame(s: Scene, w: Snapshot, rate: nat, max: nat)
    requires Draws(s.view, w, rate, max)
    ensures SameStage(s, s.(view := w))
  {
    hide SetRate, TakeUpTo;
  }

  lemma ReturnsSame(s: Scene, count: nat)
    requires s.view.purse.query.Valid() && count <= s.view.purse.held
    ensures SameStage(s, s.(view := Returning(s.view, count)))
  {
  }

  // ---------- from the pool's next node to the whole attempt ----------

  /** The scan's end, whether it was paid for and whether it was sent to make up the choice. */
  lemma HeadChosen(s: Scene, i: nat, paid: bool, can: bool, room: bool, h: Host, c: Config)
    requires i == FirstOpen(s.queue, s.infos, s.view.desk, s.view.clock, c, 0)
    requires paid <==> i < ScanLimit(s.queue) && CanPay(s.view)
    requires can <==> paid && CanSend(s.queue[i].node, s.infos, s.view.desk, s.view.clock, h, c)
    ensures HeadChoice(s, room, h, c) ==
      if !paid then PassesOver(i) else if can && room then ToHead(i) else PutsBack(i)
    ensures HeadPolls(s, h, c) == if can then 1 else 0
  {
    hide FirstOpen, CanPay, CanSend;
  }

  /** The queue turned up to the scan's end, and then what became of its head. */
  lemma HeadLeft(s: Scene, i: nat, paid: bool, sent: bool)
    requires i <= |s.queue| && (sent ==> paid) && (paid ==> i < |s.queue|)
    ensures var turned := s.queue[i..] + s.queue[..i];
      && (paid ==> turned[0] == s.queue[i])
      && QueueAfter(s, if !paid then PassesOver(i) else if sent then ToHead(i) else PutsBack(i)) ==
         if !paid then turned else if sent then turned[1..]
         else [Queued(s.queue[i].node, s.view.clock)] + turned[1..]
  {
    if paid {
      assert (s.queue[i..] + s.queue[..i])[1..] == s.queue[i + 1..] + s.queue[..i];
    }
  }

  /** The attempt, once the bootstrap address was not sent to. */
  ghost predicate OtherFollows(s: Scene, t: Scene, e: Attempt, skip: bool, h: Host, c: Config) {
    var choice := if skip then Unaffordable else HeadChoice(s, h.room(s.polls), h, c);
    && Follows(e, s, choice, h) && t.queue == QueueAfter(s, choice)
    && InfosAfter(s.infos, t.infos, e.target, s.view.clock)
    && Ends(s, t, e, choice, s.polls + (if skip then 0 else HeadPolls(s, h, c)), h, c)
  }

  lemma BootstrapMade(s: Scene, t: Scene, e: Attempt, h: Host, c: Config)
    requires TriesBootstrap(s, c) && SendsBootstrap(s, h.room(s.polls), h, c) && Attempted(s.view, t.view, e, c)
    requires e.target == Some(Node(h.id, s.view.bootstrap[0])) && e.purpose == Bootstrap
    requires e.refused == e.offered == None
    requires t.queue == s.queue && t.infos == ProbedInfo(s.infos, s.view.bootstrap[0], s.view.clock)
    requires t.polls == s.polls + BootstrapPolls(s, h, c)
    ensures Makes(s, t, e, h, c)
  {
    hide Attempted, InfosAfter, ProbedInfo, CanSend, PaysBootstrap, HeadChoice;
    InfosProbed(s.infos, e.target.value, s.view.clock);
  }

  lemma OtherMade(s: Scene, w: Scene, t: Scene, e: Attempt, skip: bool, h: Host, c: Config)
    requires Chosen(s.view, w.view, false, {}) && w.queue == s.queue && w.infos == s.infos
    requires w.polls == s.polls + BootstrapPolls(s, h, c)
    requires TriesBootstrap(s, c) ==> !SendsBootstrap(s, h.room(s.polls), h, c)
    requires skip <==> TriesBootstrap(s, c) && !PaysBootstrap(s)
    requires Attempted(s.view, t.view, e, c) && OtherFollows(w, t, e, skip, h, c)
    ensures Makes(s, t, e, h, c)
  {
    hide Attempted, HeadChoice, HeadPolls, BootstrapPolls, Follows, QueueAfter, InfosAfter, SendsBootstrap, Choose,
         TriesBootstrap, PaysBootstrap, Revisits, Chosen, PollsBefore;
    OtherChoice(s, w, skip, h, c);
    var choice := Choose(s, h, c);
    ChosenKeeps(s.view, w.view, {});
    SameQueue(s, w, choice);
    SameFollows(e, s, w, choice, h);
    if !choice.ToHead? {
      SameRevisits(s, w, t, e, PollsBefore(s, h, c), h, c);
    }
  }

  /** Once the bootstrap address was not sent to, the state left decides like the state found. */
  lemma OtherChoice(s: Scene, w: Scene, skip: bool, h: Host, c: Config)
    requires Chosen(s.view, w.view, false, {}) && w.queue == s.queue && w.infos == s.infos
    requires w.polls == s.polls + BootstrapPolls(s, h, c)
    requires TriesBootstrap(s, c) ==> !SendsBootstrap(s, h.room(s.polls), h, c)
    requires skip <==> TriesBootstrap(s, c) && !PaysBootstrap(s)
    ensures Choose(s, h, c) == if skip then Unaffordable else HeadChoice(w, h.room(w.polls), h, c)
    ensures !Choose(s, h, c).ToBootstrap?
    ensures PollsBefore(s, h, c) == w.polls + if skip then 0 else HeadPolls(w, h, c)
  {
    hide HeadChoice, SendsBootstrap, TriesBootstrap, PaysBootstrap, Chosen, BootstrapPolls;
    SameHead(s, w, h.room(w.polls), h, c);
    SameHead(s, w, true, h, c);
    HeadOnly(s, h.room(w.polls), h, c);
  }

  lemma HeadOnly(s: Scene, room: bool, h: Host, c: Config)
    ensures !HeadChoice(s, room, h, c).ToBootstrap? && !HeadChoice(s, room, h, c).Unaffordable?
  {
    hide FirstOpen, CanPay, CanSend;
  }

  /** Whoever was put back on the way, the revisit is decided by the state before that. */
  lemma RevisitsFrom(s: Scene, w: Scene, t: Scene, e: Attempt, polls: nat, h: Host, c: Config)
    requires Chosen(s.view, w.view, false, EndpointOf(e.refused)) && w.infos == s.infos
    requires Revisits(w, t, e, polls, h, c)
    ensures Revisits(s, t, e, polls, h, c)
  {
    hide Level, CanSend, Revisitable;
    var gone := EndpointOf(e.refused);
    assert s.view.live - gone - gone == s.view.live - gone;
  }

  lemma SameRevisits(s: Scene, w: Scene, t: Scene, e: Attempt, polls: nat, h: Host, c: Config)
    requires Chosen(s.view, w.view, false, {}) && w.infos == s.infos && Revisits(w, t, e, polls, h, c)
    ensures Revisits(s, t, e, polls, h, c)
  {
    hide Level, CanSend, Revisitable;
    assert s.view.live - {} - EndpointOf(e.refused) == s.view.live - EndpointOf(e.refused);
  }

  lemma RevisitsRefused(s: Scene, t: Scene, e: Attempt, refused: Option<Node>, polls: nat, h: Host, c: Config)
    requires Revisits(s, t, e, polls, h, c) && e.refused == None
    requires forall a :: a in EndpointOf(refused) ==> a !in s.view.live
    ensures Revisits(s, t, e.(refused := refused), polls, h, c)
  {
    hide CanPay, CanSend, Revisitable;
    assert s.view.live - EndpointOf(refused) == s.view.live - {};
  }

  lemma MakesAttempt(s: Scene, t: Scene, e: Attempt, h: Host, c: Config)
    requires Makes(s, t, e, h, c)
    ensures Attempted(s.view, t.view, e, c)
  {
  }

  /** Paying and being paid back on the way to the pool changes nothing about what becomes of the pool's next node. */
  lemma SameHead(s: Scene, t: Scene, room: bool, h: Host, c: Config)
    requires Chosen(s.view, t.view, false, {}) && t.queue == s.queue && t.infos == s.infos
    ensures HeadChoice(t, room, h, c) == HeadChoice(s, room, h, c)
  {
    hide Level, FirstOpen, CanSend;
  }

  lemma SameQueue(s: Scene, t: Scene, choice: Choice)
    requires t.queue == s.queue && t.view.clock == s.view.clock
    ensures QueueAfter(t, choice) == QueueAfter(s, choice)
  {
  }

  lemma SameFollows(e: Attempt, s: Scene, t: Scene, choice: Choice, h: Host)
    requires t.queue == s.queue && t.view.bootstrap == s.view.bootstrap && Follows(e, t, choice, h)
    ensures Follows(e, s, choice, h)
  {
  }

  lemma InfosSame(infos: map<Addr, Info>, now: Instant)
    ensures InfosAfter(infos, infos, None, now)
  {
  }

  lemma InfosProbed(infos: map<Addr, Info>, node: Node, now: Instant)
    ensures InfosAfter(infos, ProbedInfo(infos, node.addr, now), Some(node), now)
  {
  }

  lemma InfosGone(before: map<Addr, Info>, mid: map<Addr, Info>, after: map<Addr, Info>, target: Option<Node>,
                  now: Instant)
    requires OnlyExpiredGone(before, mid, now) && InfosAfter(mid, after, target, now)
    ensures InfosAfter(before, after, target, now)
  {
  }

  /** Why an attempt queries nobody: the bootstrap address cannot be sent to, or it is not its turn; the pool has nobody
      who may be asked, can be paid for and can be sent to, unless the bootstrap address could not be paid for; and
      nobody is due for another visit, or the one who is cannot be visited. */
  lemma NobodyQueried(s: Scene, t: Scene, e: Attempt, h: Host, c: Config)
    requires Makes(s, t, e, h, c) && e.target == None
    ensures !(TriesBootstrap(s, c) && SendsBootstrap(s, h.room(s.polls), h, c))
    ensures || (TriesBootstrap(s, c) && !PaysBootstrap(s))
            || var i := FirstOpen(s.queue, s.infos, s.view.desk, s.view.clock, c, 0);
               i == ScanLimit(s.queue) || !CanPay(s.view)
               || !CanSend(s.queue[i].node, s.infos, s.view.desk, s.view.clock, h, c)
               || !h.room(s.polls + BootstrapPolls(s, h, c))
    ensures match e.offered
            case None => NobodyDue(s, t)
            case Some(node) => !CanRevisit(s, node, e.refused, h, c) || !h.room(PollsBefore(s, h, c))
  {
    hide Attempted, InfosAfter, QueueAfter, CanPay, CanSend, FirstOpen, NobodyDue, CanRevisit;
  }

  // ---------- how a tick starts ----------

  /** What is known of the nodes once a request came to nothing: a node that has not answered since backs off. */
  ghost function Blamed(infos: map<Addr, Info>, request: Request, now: Instant): map<Addr, Info> {
    var a := request.node.addr;
    if a in infos && infos[a].lastSuccessAt <= request.dispatchedAt then infos[a := Failed(infos[a], now)] else infos
  }

  /** The requests and what is known of the nodes, once every overdue request has come to nothing in its turn. */
  ghost function Lapsed(pending: map<PendingKey, Request>, infos: map<Addr, Info>, expiry: seq<Deadline>, now: Instant)
    : (map<PendingKey, Request>, map<Addr, Info>)
  {
    if expiry == [] || expiry[0].at > now then (pending, infos)
    else if expiry[0].key in pending && pending[expiry[0].key].deadline == expiry[0].at then
      Lapsed(pending - {expiry[0].key}, Blamed(infos, pending[expiry[0].key], now), expiry[1..], now)
    else Lapsed(pending, infos, expiry[1..], now)
  }

  /** A tick starts to resolve bootstrap names when none is waiting, the pool is low and the gate's interval is over. */
  ghost predicate Resolves(s: Scene, gateOpen: bool, c: Config) {
    s.view.bootstrap == [] && c.bootstrapMaxNodes > 0 && |s.queue| < c.lowWatermark && gateOpen
  }

  /** What the first attempt of a tick finds, by what the tick found: overdue marks and requests are gone. */
  ghost predicate TickStarts(s: Scene, t: Scene, c: Config, now: Instant) {
    && t.queue == s.queue && t.polls == s.polls && t.view.clock == now && t.view.live == Live(s.view.live, now)
    && t.view.purse.destination == s.view.purse.destination && t.view.bootstrap == s.view.bootstrap
    && (t.view.desk.pending, t.infos) == Lapsed(s.view.desk.pending, s.infos, s.view.desk.expiry, now)
    && Ledger(t.view.desk, now, c)
  }

  /** Why a tick sends no more: it has spent the whole tokens that the query bucket held at the new rate, the burst at
      most; or as many requests are in flight as allowed; or an attempt found nobody to send to. */
  ghost predicate Stops(sent: nat, query: Bucket, rate: int, attempts: seq<Attempt>, d: Desk, now: Instant, c: Config) {
    || (query.Valid() && rate >= 0 && sent == WholeTokens(SetRate(query, rate, now), c.burst, now))
    || |d.pending| >= c.maxInFlight || (attempts != [] && attempts[|attempts| - 1].target == None)
  }

  lemma StopsFor(sent: nat, query: Bucket, rate: nat, attempts: seq<Attempt>, d: Desk, now: Instant, c: Config)
    requires query.Valid()
    requires || sent == WholeTokens(SetRate(query, rate, now), c.burst, now) || |d.pending| >= c.maxInFlight
             || (attempts != [] && attempts[|attempts| - 1].target == None)
    ensures Stops(sent, query, rate, attempts, d, now, c)
  {
  }

  lemma DrawnWhole(v: Snapshot, w: Snapshot, rate: nat, max: nat)
    requires Draws(v, w, rate, max)
    ensures v.purse.query.Valid()
    ensures w.purse.held == v.purse.held + WholeTokens(SetRate(v.purse.query, rate, v.clock), max, v.clock)
  {
    hide SetRate, TakeUpTo, Level;
    TakeUpToWhole(Rated(v, rate).purse.query, max, v.clock);
  }

  /** A node that is still known may be sent to as before. */
  lemma StillSendable(infos: map<Addr, Info>, left: map<Addr, Info>, node: Node, d: Desk, now: Instant, h: Host,
                      c: Config)
    requires OnlyExpiredGone(infos, left, now) && Revisitable(infos, node, h.interval, now)
    ensures CanSend(node, left, d, now, h, c) <==> CanSend(node, infos, d, now, h, c)
  {
    hide Blocked, HasRoom, EligibleAt;
  }

  lemma TickBegun(s: Scene, begun: Scene, t: Scene, c: Config, now: Instant)
    requires TickStarts(s, begun, c, now) && SameStage(begun, t)
    ensures TickStarts(s, t, c, now) && t.view.live == begun.view.live == Live(s.view.live, now)
  {
    hide Live, Lapsed, Ledger;
  }

  // ---------- which marks are lost ----------

  /** Endpoint `a` is the pool's next node, it can be paid for, and it cannot be sent to: because there is no room for
      it, no channel of its family, or no room in that channel. The bootstrap address does not come before it. */
  ghost predicate IsPutBack(s: Scene, h: Host, c: Config, a: Addr) {
    var i := FirstOpen(s.queue, s.infos, s.view.desk, s.view.clock, c, 0);
    && i < ScanLimit(s.queue) && s.queue[i].node.addr == a && CanPay(s.view)
    && !(CanSend(s.queue[i].node, s.infos, s.view.desk, s.view.clock, h, c)
         && h.room(s.polls + BootstrapPolls(s, h, c)))
    && !(TriesBootstrap(s, c) && SendsBootstrap(s, h.room(s.polls), h, c))
  }

  /** An attempt takes a mark away if and only if the endpoint is put back and is not then revisited at once. */
  lemma LostAt(s: Scene, t: Scene, e: Attempt, h: Host, c: Config, a: Addr)
    requires Makes(s, t, e, h, c)
    ensures a in EndpointOf(e.refused) <==> IsPutBack(s, h, c, a)
    ensures a in t.view.live <==>
      a in EndpointOf(e.target) || (a in s.view.live && !IsPutBack(s, h, c, a))
  {
    hide Level, HasRoom, Sent, Ttl, CanSend, FirstOpen, InfosAfter;
    RefusedIff(s, e, h, c, a);
    hide Follows, Choose, IsPutBack;
  }

  lemma RefusedIff(s: Scene, e: Attempt, h: Host, c: Config, a: Addr)
    requires Follows(e, s, Choose(s, h, c), h)
    ensures a in EndpointOf(e.refused) <==> IsPutBack(s, h, c, a)
  {
    hide Level, CanSend, CanPay, FirstOpen;
    if TriesBootstrap(s, c) && !PaysBootstrap(s) {
      assert !CanPay(s.view);
    }
  }

  /** Why a node that may be asked cannot be sent to: the limit in flight is reached, its family has no channel, or that
      channel has no room. */
  lemma PutBackWhy(s: Scene, h: Host, c: Config, a: Addr)
    ensures IsPutBack(s, h, c, a) <==>
      var i := FirstOpen(s.queue, s.infos, s.view.desk, s.view.clock, c, 0);
      && i < ScanLimit(s.queue) && s.queue[i].node.addr == a && CanPay(s.view)
      && (|| |s.view.desk.pending| >= c.maxInFlight || (a.V4? && !h.hasV4) || (a.V6? && !h.hasV6)
          || !h.room(s.polls + BootstrapPolls(s, h, c)))
      && !(TriesBootstrap(s, c) && SendsBootstrap(s, h.room(s.polls), h, c))
  {
    hide CanPay, FirstOpen, SendsBootstrap, BacksOff;
    FirstOpenIs(s.queue, s.infos, s.view.desk, s.view.clock, c, 0);
  }

  /** At attempt `i` the endpoint, still recent, was put back, and no attempt from then on queried it. */
  ghost predicate LostFrom(scenes: seq<Scene>, attempts: seq<Attempt>, h: Host, c: Config, a: Addr, i: nat) {
    && i < |attempts| < |scenes| && a in scenes[i].view.live && IsPutBack(scenes[i], h, c, a)
    && forall j :: i <= j < |attempts| ==> a !in EndpointOf(attempts[j].target)
  }

  ghost predicate Loses(scenes: seq<Scene>, attempts: seq<Attempt>, h: Host, c: Config, a: Addr) {
    exists i :: LostFrom(scenes, attempts, h, c, a, i)
  }

  /** A mark is lost by the last attempt, or before it; unless the last attempt queries the endpoint. */
  lemma LostMore(scenes: seq<Scene>, attempts: seq<Attempt>, h: Host, c: Config, a: Addr, n: nat)
    requires |attempts| == n + 1 && |scenes| == n + 2
    ensures Loses(scenes, attempts, h, c, a) <==>
      && a !in EndpointOf(attempts[n].target)
      && ((a in scenes[n].view.live && IsPutBack(scenes[n], h, c, a))
          || Loses(scenes[..n + 1], attempts[..n], h, c, a))
  {
    hide IsPutBack;
    if Loses(scenes, attempts, h, c, a) {
      var i: nat :| LostFrom(scenes, attempts, h, c, a, i);
      assert i < n ==> LostFrom(scenes[..n + 1], attempts[..n], h, c, a, i);
    }
    if a !in EndpointOf(attempts[n].target) {
      if a in scenes[n].view.live && IsPutBack(scenes[n], h, c, a) {
        assert LostFrom(scenes, attempts, h, c, a, n);
      } else if Loses(scenes[..n + 1], attempts[..n], h, c, a) {
        var before, made := scenes[..n + 1], attempts[..n];
        var i: nat :| LostFrom(before, made, h, c, a, i);
        assert LostFrom(scenes, attempts, h, c, a, i);
      }
    }
  }

  /** Over any run of attempts, an endpoint loses its mark before the mark's time if and only if, still recent, it was
      the pool's next node when it could be paid for but not sent to, and it was not queried after that. */
  lemma {:induction false} LostIff(scenes: seq<Scene>, attempts: seq<Attempt>, h: Host, c: Config, a: Addr)
    requires Makings(scenes, attempts, h, c) && a in scenes[0].view.live
    ensures a !in scenes[|attempts|].view.live <==> Loses(scenes, attempts, h, c, a)
    decreases |attempts|
  {
    hide Makes, IsPutBack;
    if attempts == [] {
    } else {
      var n := |attempts| - 1;
      LostIff(scenes[..n + 1], attempts[..n], h, c, a);
      hide Loses;
      LostMore(scenes, attempts, h, c, a, n);
      LostAt(scenes[n], scenes[n + 1], attempts[n], h, c, a);
    }
  }

  /** The same by what a tick leaves. */
  lemma LostInTick(scenes: seq<Scene>, attempts: seq<Attempt>, t: Scene, h: Host, c: Config)
    requires Makings(scenes, attempts, h, c) && SameStage(scenes[|attempts|], t)
    ensures forall a :: a in scenes[0].view.live ==> (a !in t.view.live <==> Loses(scenes, attempts, h, c, a))
  {
    hide Makes, Loses;
    forall a | a in scenes[0].view.live ensures a !in t.view.live <==> Loses(scenes, attempts, h, c, a) {
      LostIff(scenes, attempts, h, c, a);
    }
  }
}
