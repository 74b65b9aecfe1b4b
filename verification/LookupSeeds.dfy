/** Where the nodes that a lookup starts from come from: a sample of the reservoir, published as a routing snapshot and
    asked for its nodes nearest to a hash. They have different endpoints, which is what a lookup needs to ask none
    of them twice. */
module LookupSeeds {
  import opened Common
  import opened Nodes
  import opened Sorting
  import opened RoutingSnapshots
  import Reservoirs
  import SnapshotSampling
  import PeerLookups

  /** No two nodes of a list have the same endpoint. */
  ghost predicate Different(nodes: seq<Node>) {
    forall i, j :: 0 <= i < j < |nodes| ==> nodes[i].addr != nodes[j].addr
  }

  lemma EndpointsSnoc(nodes: seq<Node>, n: Node)
    ensures Endpoints(nodes + [n]) == Endpoints(nodes) + {n.addr}
  {
    assert n in nodes + [n];
    assert forall m :: m in nodes ==> m in nodes + [n];
  }

  /** Endpoints are different exactly if there are as many as nodes. */
  lemma {:induction false} DifferentSize(nodes: seq<Node>)
    ensures |Endpoints(nodes)| <= |nodes|
    ensures Different(nodes) <==> |Endpoints(nodes)| == |nodes|
  {
    if nodes == [] {
      assert Endpoints(nodes) == {};
    } else {
      var rest, last := nodes[..|nodes| - 1], nodes[|nodes| - 1];
      assert nodes == rest + [last];
      DifferentSize(rest);
      EndpointsSnoc(rest, last);
      DifferentSnoc(rest, last);
    }
  }

  lemma DifferentSnoc(rest: seq<Node>, last: Node)
    ensures Different(rest + [last]) <==> Different(rest) && last.addr !in Endpoints(rest)
  {
    var nodes := rest + [last];
    assert forall i :: 0 <= i < |rest| ==> nodes[i] == rest[i] && rest[i] in rest;
    if Different(nodes) {
      forall i | 0 <= i < |rest| ensures rest[i].addr != last.addr {
        assert nodes[i].addr != nodes[|rest|].addr;
      }
    }
  }

  lemma DifferentSame(a: seq<Node>, b: seq<Node>)
    requires multiset(a) == multiset(b) && Different(a)
    ensures Different(b)
  {
    MultisetMember(a, b);
    assert |a| == |multiset(a)| == |multiset(b)| == |b|;
    assert Endpoints(a) == Endpoints(b);
    DifferentSize(a);
    DifferentSize(b);
  }

  lemma {:induction false} DifferentFamily(nodes: seq<Node>, ipv6: Option<bool>)
    requires Different(nodes)
    ensures Different(OfFamily(nodes, ipv6)) && Endpoints(OfFamily(nodes, ipv6)) <= Endpoints(nodes)
  {
    if nodes == [] {
      assert OfFamily(nodes, ipv6) == [];
    } else {
      var rest, last := nodes[..|nodes| - 1], nodes[|nodes| - 1];
      assert nodes == rest + [last];
      DifferentSnoc(rest, last);
      DifferentFamily(rest, ipv6);
      OfFamilySnoc(rest, last, ipv6);
      EndpointsSnoc(rest, last);
      EndpointsSnoc(OfFamily(rest, ipv6), last);
      DifferentSnoc(OfFamily(rest, ipv6), last);
    }
  }

  /** The nearest nodes have different endpoints if the members of the snapshot have. */
  lemma NearestDifferent(members: seq<Node>, target: NodeId, ipv6: Option<bool>, count: nat)
    requires Different(members)
    ensures Different(Take(Sort(ByDistance(target), OfFamily(members, ipv6)), count))
  {
    hide Sort, OfFamily;
    DifferentFamily(members, ipv6);
    SortPermutes(ByDistance(target), OfFamily(members, ipv6));
    DifferentSame(OfFamily(members, ipv6), Sort(ByDistance(target), OfFamily(members, ipv6)));
  }

  /** The nodes nearest to a hash, in a routing snapshot of a sample of the reservoir, are fit for a lookup. */
  lemma SeedsDistinct(slots: Reservoirs.Slots, index: map<Addr, nat>, now: Instant, size: nat, order: seq<nat>,
                      cursors: seq<nat>, output: seq<Node>, picked: seq<nat>, filled: nat, limit: nat, target: NodeId,
                      ipv6: Option<bool>, count: nat)
    requires SnapshotSampling.IsSample(slots, now, size, order, cursors, output, picked, filled)
    requires Reservoirs.IndexOk(slots, index)
    ensures var nearest := Take(Sort(ByDistance(target), OfFamily(Take(output, limit), ipv6)), count);
      NoRepeats(PeerLookups.Addrs(nearest)) && |nearest| <= count
  {
    SnapshotSampling.SampleDistinct(slots, index, now, size, order, cursors, output, picked, filled);
    hide SnapshotSampling.IsSample, Reservoirs.IndexOk, Sort, OfFamily;
    NearestDifferent(Take(output, limit), target, ipv6, count);
  }
}
