/** The race of metadata fetches for one hash. Each attempt is reserved before its fetch starts; a fetch skipped
    by the failure cache gives its reservation back, any other keeps it. One step is one branch of the select
    loop followed by the loop's next round; every interleaving is a sequence of steps. */
module PeerRaces {
  import opened Common
  import opened Nodes
  import opened PendingQueues

  const MAX_ATTEMPTS: nat := 12

  datatype FetchOutcome = SkippedCached | FetchFailed | Fetched

  /** What can wake the select loop. */
  datatype Event =
    | Joined(addr: Addr, outcome: FetchOutcome)
    | TaskLost(addr: Addr)
    | LivePeer(addr: Addr)
    | LiveClosed
    | LookupPeer(addr: Addr)
    | LookupClosed
    | LookupSubmitted
    | DeadlineElapsed
    | IdleElapsed

  datatype Verdict = Racing | NothingFound | FoundAt(addr: Addr)

  ghost function Elements(s: seq<Addr>): set<Addr> {
    set a | a in s
  }

  /** A candidate is seen once and is either waiting or launched; a launched one is running, spent or skipped;
      and reservations are exactly the running fetches and the spent ones. */
  ghost predicate Accounted(seen: set<Addr>, pending: seq<Addr>, launched: seq<Addr>, running: set<Addr>, reserved: nat,
                            spent: nat, skipped: nat) {
    && NoRepeats(launched + pending) && Elements(launched + pending) == seen && |seen| <= MAX_CANDIDATES
    && running <= Elements(launched)
    && reserved == |running| + spent <= MAX_ATTEMPTS
    && |launched| == |running| + spent + skipped
  }

  lemma {:induction false} DistinctSize(s: seq<Addr>)
    requires NoRepeats(s)
    ensures |Elements(s)| == |s|
  {
    if s == [] {
    } else {
      var last := |s| - 1;
      DistinctSize(s[..last]);
      assert Elements(s) == Elements(s[..last]) + {s[last]};
    }
  }

  lemma QueueOk(seen: set<Addr>, pending: seq<Addr>, launched: seq<Addr>, running: set<Addr>, reserved: nat, spent: nat,
                skipped: nat, addr: Addr)
    requires Accounted(seen, pending, launched, running, reserved, spent, skipped)
    requires addr !in seen && |seen| < MAX_CANDIDATES
    ensures Accounted(seen + {addr}, pending + [addr], launched, running, reserved, spent, skipped)
  {
    assert launched + (pending + [addr]) == (launched + pending) + [addr];
    assert forall i :: 0 <= i < |launched + pending| ==> (launched + pending)[i] in Elements(launched + pending);
  }

  lemma LaunchOk(seen: set<Addr>, pending: seq<Addr>, launched: seq<Addr>, running: set<Addr>, reserved: nat,
                 spent: nat, skipped: nat)
    requires Accounted(seen, pending, launched, running, reserved, spent, skipped) && pending != []
    requires reserved < MAX_ATTEMPTS
    ensures pending[0] !in launched
    ensures Accounted(seen, pending[1..], launched + [pending[0]], running + {pending[0]}, reserved + 1, spent, skipped)
  {
    assert (launched + [pending[0]]) + pending[1..] == launched + pending;
    assert (launched + pending)[|launched|] == pending[0];
    assert forall i :: 0 <= i < |launched| ==> (launched + pending)[i] == launched[i];
    assert pending[0] !in launched;
    assert forall a :: a in running ==> a in Elements(launched);
  }

  lemma EndOk(seen: set<Addr>, pending: seq<Addr>, launched: seq<Addr>, running: set<Addr>, reserved: nat, spent: nat,
              skipped: nat, addr: Addr)
    requires Accounted(seen, pending, launched, running, reserved, spent, skipped) && addr in running
    ensures reserved > 0 && addr in launched
    ensures Accounted(seen, pending, launched, running - {addr}, reserved, spent + 1, skipped)
    ensures Accounted(seen, pending, launched, running - {addr}, reserved - 1, spent, skipped + 1)
  {
  }

  /** No address is launched twice, and no more than 64 are launched, of which 12 at most count as attempts. */
  lemma LaunchBounds(seen: set<Addr>, pending: seq<Addr>, launched: seq<Addr>, running: set<Addr>, reserved: nat,
                     spent: nat, skipped: nat)
    requires Accounted(seen, pending, launched, running, reserved, spent, skipped)
    ensures NoRepeats(launched) && |launched| <= MAX_CANDIDATES && |running| <= MAX_ATTEMPTS && spent <= MAX_ATTEMPTS
  {
    DistinctSize(launched + pending);
    assert forall i :: 0 <= i < |launched| ==> (launched + pending)[i] == launched[i];
  }

  /** The attempts an event uses up. */
  function Spends(e: Event): nat {
    match e
    case Joined(_, outcome) => if outcome == SkippedCached then 0 else 1
    case TaskLost(_) => 1
    case _ => 0
  }

  /** The candidates as they are lined up: in order, each once, 64 at most. */
  ghost function LinedUp(peers: seq<Addr>): seq<Addr> {
    if peers == [] then []
    else
      var line, next := LinedUp(peers[..|peers| - 1]), peers[|peers| - 1];
      if next in line || |line| >= MAX_CANDIDATES then line else line + [next]
  }

  class PeerRace {
    var running: set<Addr>
    var seen: set<Addr>
    var pending: seq<Addr>
    var reserved: nat
    var accepting: bool
    var lookupOpen: bool
    var lookupSubmitted: bool
    var deadlineElapsed: bool
    var verdict: Verdict
    ghost var launched: seq<Addr>
    ghost var spent: nat
    ghost var skipped: nat

    ghost predicate Accounts()
      reads this
    {
      Accounted(seen, pending, launched, running, reserved, spent, skipped)
    }

    /** Nothing runs and nothing more can be launched: the attempts are used up, or nobody waits and nobody more
        can arrive. */
    ghost predicate Exhausted()
      reads this
    {
      running == {} && (reserved == MAX_ATTEMPTS || (pending == [] && !accepting && !lookupOpen))
    }

    /** The loop waits in its select. */
    ghost predicate Waiting()
      reads this
    {
      && verdict == Racing && (pending == [] || reserved == MAX_ATTEMPTS)
      && (|seen| >= MAX_CANDIDATES ==> !accepting && !lookupOpen)
      && !Exhausted()
    }

    /** Why the race may end: a peer it launched delivered, or all attempts are spent, or every candidate it saw
        was launched and none is running. */
    ghost predicate Ended()
      reads this
    {
      match verdict
      case Racing => false
      case NothingFound => running == {} && (spent == MAX_ATTEMPTS || seen == Elements(launched))
      case FoundAt(addr) => addr in launched && running == {}
    }

    ghost predicate Valid()
      reads this
    {
      Accounts() && (Waiting() || Ended())
    }

    /** Which branches of the select may fire. */
    predicate Enabled(e: Event)
      reads this
    {
      match e
      case Joined(addr, _) => addr in running
      case TaskLost(addr) => addr in running
      case LivePeer(_) => accepting
      case LiveClosed => accepting
      case LookupPeer(_) => lookupOpen
      case LookupClosed => lookupOpen
      case LookupSubmitted => lookupOpen && !lookupSubmitted
      case DeadlineElapsed => lookupOpen && !deadlineElapsed
      case IdleElapsed => running == {} && pending == [] && !lookupOpen
    }

    /** A waiting race can always be woken: by a fetch, by a channel, or by its own idle timer. */
    lemma NeverStuck() returns (e: Event)
      requires Valid() && verdict == Racing
      ensures Enabled(e)
    {
      if running != {} {
        var addr :| addr in running;
        e := TaskLost(addr);
      } else if lookupOpen {
        e := LookupClosed;
      } else if accepting {
        e := LiveClosed;
      } else {
        e := IdleElapsed;
      }
    }

    /** With no fetch running, a timer of the race's own wakes it: the idle timer or its deadline for the lookup. The
        only exception is a lookup channel that stays open past that deadline; then the race waits for the lookup. */
    lemma OwnTimer()
      requires Valid() && verdict == Racing && running == {}
      ensures Enabled(IdleElapsed) || Enabled(DeadlineElapsed) <==> !(lookupOpen && deadlineElapsed)
    {
    }

    constructor (peers: seq<Addr>, hasLookup: bool)
      ensures Valid() && spent == skipped == 0 && !verdict.FoundAt?
      ensures launched + pending == LinedUp(peers) && seen == Elements(LinedUp(peers))
      ensures accepting == (|seen| < MAX_CANDIDATES) && lookupOpen == (hasLookup && |seen| < MAX_CANDIDATES)
      ensures lookupSubmitted == !hasLookup && !deadlineElapsed && (verdict == NothingFound <==> Exhausted())
    {
      running, seen, pending, reserved := {}, {}, [], 0;
      accepting, lookupOpen, lookupSubmitted, deadlineElapsed := true, hasLookup, !hasLookup, false;
      verdict, launched, spent, skipped := Racing, [], 0, 0;
      new;
      hide Accounted, PeerRace.Exhausted, PeerRace.Waiting, PeerRace.Ended;
      NothingYet();
      QueueAll(peers);
      assert launched + pending == pending;
      Round();
    }

    /** Line up the candidates known at the start. */
    method QueueAll(peers: seq<Addr>)
      requires Accounts() && seen == {} && pending == []
      modifies this`seen, this`pending
      ensures Accounts() && pending == LinedUp(peers) && seen == Elements(pending)
    {
      hide Accounted;
      for i := 0 to |peers|
        invariant Accounts() && pending == LinedUp(peers[..i]) && seen == Elements(pending) && |seen| == |pending|
      {
        assert peers[..i + 1][..i] == peers[..i];
        QueueCandidate(peers[i]);
      }
      assert peers[..|peers|] == peers;
    }

    /** Line a candidate up unless it was seen before or enough were seen. */
    method QueueCandidate(addr: Addr)
      requires Accounts()
      modifies this`seen, this`pending
      ensures Accounts() && seen == old(seen) + (if |old(seen)| < MAX_CANDIDATES then {addr} else {})
      ensures pending == old(pending) + (if addr in old(seen) || |old(seen)| >= MAX_CANDIDATES then [] else [addr])
    {
      if |seen| < MAX_CANDIDATES && addr !in seen {
        QueueOk(seen, pending, launched, running, reserved, spent, skipped, addr);
        seen, pending := seen + {addr}, pending + [addr];
      }
    }

    /** The top of the loop: launch while attempts may be reserved, stop listening once enough were seen, and
        give up when nothing runs and nothing more can be launched. */
    method Round()
      requires Accounts() && verdict == Racing
      modifies this`running, this`pending, this`reserved, this`accepting, this`lookupOpen, this`verdict, this`launched
      ensures Valid() && old(launched) <= launched && !verdict.FoundAt?
      ensures launched + pending == old(launched + pending)
      ensures accepting == (old(accepting) && |seen| < MAX_CANDIDATES)
      ensures lookupOpen == (old(lookupOpen) && |seen| < MAX_CANDIDATES)
      ensures verdict == NothingFound <==> Exhausted()
    {
      hide Accounted;
      Launch();
      if |seen| >= MAX_CANDIDATES {
        accepting, lookupOpen := false, false;
      }
      if running == {} && (reserved >= MAX_ATTEMPTS || (pending == [] && !accepting && !lookupOpen)) {
        verdict := NothingFound;
        AllTried(seen, pending, launched, running, reserved, spent, skipped);
      }
    }

    /** Launch waiting candidates in order, as long as an attempt may be reserved. */
    method Launch()
      requires Accounts()
      modifies this`running, this`pending, this`reserved, this`launched
      ensures Accounts() && old(launched) <= launched && reserved <= MAX_ATTEMPTS
      ensures pending == [] || reserved == MAX_ATTEMPTS
      ensures launched + pending == old(launched + pending)
    {
      assert reserved <= MAX_ATTEMPTS;
      hide Accounted;
      while reserved < MAX_ATTEMPTS && pending != []
        invariant Accounts() && reserved <= MAX_ATTEMPTS && old(launched) <= launched
        invariant launched + pending == old(launched + pending)
        decreases |pending|
      {
        LaunchOk(seen, pending, launched, running, reserved, spent, skipped);
        assert (launched + [pending[0]]) + pending[1..] == launched + pending;
        launched := launched + [pending[0]];
        running := running + {pending[0]};
        pending, reserved := pending[1..], reserved + 1;
      }
    }

    /** A fetch ended. A skip refunds its reservation; a failure, or a lost task, keeps it; a success ends the
        race and cancels the other fetches. */
    method End(addr: Addr, outcome: FetchOutcome)
      requires Accounts() && verdict == Racing && addr in running
      modifies this`running, this`reserved, this`verdict, this`spent, this`skipped
      ensures Accounts() && verdict == (if outcome == Fetched then FoundAt(addr) else Racing)
      ensures outcome == Fetched ==> Ended()
      ensures outcome == SkippedCached ==>
        reserved == old(reserved) - 1 && spent == old(spent) && skipped == old(skipped) + 1
      ensures outcome == FetchFailed ==> reserved == old(reserved) && spent == old(spent) + 1
      ensures outcome != SkippedCached ==> skipped == old(skipped)
    {
      hide Accounted;
      EndOk(seen, pending, launched, running, reserved, spent, skipped, addr);
      running := running - {addr};
      if outcome == SkippedCached {
        reserved, skipped := reserved - 1, skipped + 1;
      } else {
        spent := spent + 1;
        if outcome == Fetched {
          verdict := FoundAt(addr);
          CancelOk(seen, pending, launched, running, reserved, spent, skipped);
          spent, running := spent + |running|, {};
        }
      }
    }

    /** One branch of the select, and the next round of the loop. */
    method Step(e: Event)
      requires Valid() && verdict == Racing && Enabled(e)
      modifies this
      ensures Valid() && old(launched) <= launched && old(seen) <= seen
      ensures verdict.FoundAt? <==> e.Joined? && e.outcome == Fetched
      ensures verdict.FoundAt? ==> e == Joined(verdict.addr, Fetched)
      ensures verdict == NothingFound <==> e == IdleElapsed || (!verdict.FoundAt? && Exhausted())
      ensures !verdict.FoundAt? ==> spent == old(spent) + Spends(e)
      ensures skipped == old(skipped) + (if e.Joined? && e.outcome == SkippedCached then 1 else 0)
      ensures seen == old(seen) + (if (e.LivePeer? || e.LookupPeer?) && |old(seen)| < MAX_CANDIDATES then {e.addr}
                                   else {})
      ensures launched + pending == old(launched + pending) + (if seen == old(seen) then [] else [e.addr])
      ensures accepting ==> old(accepting) && !e.LiveClosed?
      ensures lookupOpen ==> old(lookupOpen) && !e.LookupClosed?
      ensures lookupSubmitted == (old(lookupSubmitted) || e.LookupSubmitted?)
      ensures deadlineElapsed == (old(deadlineElapsed) || e.DeadlineElapsed?)
    {
      hide Accounted, PeerRace.Exhausted;
      React(e);
      if verdict == Racing {
        Round();
      }
    }

    /** What one branch of the select does. */
    method React(e: Event)
      requires Accounts() && Waiting() && Enabled(e)
      modifies this
      ensures Accounts() && (verdict == Racing || Ended()) && launched == old(launched)
      ensures verdict.FoundAt? <==> e.Joined? && e.outcome == Fetched
      ensures verdict.FoundAt? ==> e == Joined(verdict.addr, Fetched)
      ensures verdict == NothingFound <==> e == IdleElapsed
      ensures !verdict.FoundAt? ==> spent == old(spent) + Spends(e)
      ensures skipped == old(skipped) + (if e.Joined? && e.outcome == SkippedCached then 1 else 0)
      ensures seen == old(seen) + (if (e.LivePeer? || e.LookupPeer?) && |old(seen)| < MAX_CANDIDATES then {e.addr}
                                   else {})
      ensures pending == old(pending) + (if seen == old(seen) then [] else [e.addr])
      ensures accepting == (old(accepting) && !e.LiveClosed?) && lookupOpen == (old(lookupOpen) && !e.LookupClosed?)
      ensures lookupSubmitted == (old(lookupSubmitted) || e.LookupSubmitted?)
      ensures deadlineElapsed == (old(deadlineElapsed) || e.DeadlineElapsed?)
    {
      hide Accounted;
      match e {
        case Joined(addr, outcome) => End(addr, outcome);
        case TaskLost(addr) => End(addr, FetchFailed);
        case LivePeer(addr) => QueueCandidate(addr);
        case LiveClosed => accepting := false;
        case LookupPeer(addr) => QueueCandidate(addr);
        case LookupClosed => lookupOpen := false;
        case LookupSubmitted => lookupSubmitted := true;
        case DeadlineElapsed => deadlineElapsed := true;
        case IdleElapsed =>
          AllTried(seen, pending, launched, running, reserved, spent, skipped);
          verdict := NothingFound;
      }
    }
  }

  lemma NothingYet()
    ensures Accounted({}, [], [], {}, 0, 0, 0)
  {
  }

  lemma AllTried(seen: set<Addr>, pending: seq<Addr>, launched: seq<Addr>, running: set<Addr>, reserved: nat,
                 spent: nat, skipped: nat)
    requires Accounted(seen, pending, launched, running, reserved, spent, skipped) && running == {}
    requires reserved >= MAX_ATTEMPTS || pending == []
    ensures spent == MAX_ATTEMPTS || seen == Elements(launched)
  {
    if pending == [] { assert launched + pending == launched; }
  }

  lemma CancelOk(seen: set<Addr>, pending: seq<Addr>, launched: seq<Addr>, running: set<Addr>, reserved: nat,
                 spent: nat, skipped: nat)
    requires Accounted(seen, pending, launched, running, reserved, spent, skipped)
    ensures Accounted(seen, pending, launched, {}, reserved, spent + |running|, skipped)
  {
  }
}
