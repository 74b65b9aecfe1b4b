/** Sorting by a total order, and the facts about prefixes of sorted sequences. */
module Sorting {

  ghost predicate TotalOrder<T(!new)>(le: (T, T) -> bool) {
    && (forall x, y :: le(x, y) || le(y, x))
    && (forall x, y :: le(x, y) && le(y, x) ==> x == y)
    && (forall x, y, z :: le(x, y) && le(y, z) ==> le(x, z))
  }

  ghost predicate Sorted<T>(le: (T, T) -> bool, s: seq<T>) {
    forall i, j :: 0 <= i < j < |s| ==> le(s[i], s[j])
  }

  function Take<T>(s: seq<T>, count: nat): seq<T> {
    if count < |s| then s[..count] else s
  }

  /** Filling up to `limit` from one sequence and then another is filling up from both. */
  lemma TakeConcat<T>(output: seq<T>, near: seq<T>, far: seq<T>, limit: nat)
    requires |output| <= limit
    ensures var filled := output + Take(near, limit - |output|);
            && |filled| <= limit
            && filled + Take(far, limit - |filled|) == output + Take(near + far, limit - |output|)
  {
  }

  function Insert<T>(le: (T, T) -> bool, x: T, s: seq<T>): seq<T> {
    if s == [] then [x]
    else if le(x, s[0]) then [x] + s
    else [s[0]] + Insert(le, x, s[1..])
  }

  /** The sorted rearrangement of `s`: SortPermutes and SortSorted say so, SortUnique that there is no other. */
  function Sort<T>(le: (T, T) -> bool, s: seq<T>): seq<T> {
    if s == [] then [] else Insert(le, s[0], Sort(le, s[1..]))
  }

  lemma {:induction false} InsertAdds<T>(le: (T, T) -> bool, x: T, s: seq<T>)
    ensures multiset(Insert(le, x, s)) == multiset(s) + multiset{x}
  {
    if s != [] && !le(x, s[0]) {
      InsertAdds(le, x, s[1..]);
      assert s == [s[0]] + s[1..];
    }
  }

  lemma {:induction false} SortPermutes<T>(le: (T, T) -> bool, s: seq<T>)
    ensures multiset(Sort(le, s)) == multiset(s)
    ensures |Sort(le, s)| == |s|
  {
    if s == [] {
    } else {
      SortPermutes(le, s[1..]);
      InsertAdds(le, s[0], Sort(le, s[1..]));
      assert s == [s[0]] + s[1..];
    }
    assert |multiset(Sort(le, s))| == |Sort(le, s)| && |multiset(s)| == |s|;
  }

  lemma SortLength<T>(le: (T, T) -> bool, s: seq<T>)
    ensures |Sort(le, s)| == |s|
  {
    SortPermutes(le, s);
  }

  lemma MultisetMember<T>(s: seq<T>, t: seq<T>)
    requires multiset(s) == multiset(t)
    ensures forall x :: x in s <==> x in t
  {
    assert forall x :: x in s <==> x in multiset(s);
    assert forall x :: x in t <==> x in multiset(t);
  }

  lemma {:induction false} InsertMembers<T>(le: (T, T) -> bool, x: T, s: seq<T>)
    ensures forall y :: y in Insert(le, x, s) <==> y == x || y in s
  {
    if s == [] || le(x, s[0]) {
      assert Insert(le, x, s) == [x] + s;
    } else {
      InsertMembers(le, x, s[1..]);
      assert s == [s[0]] + s[1..];
    }
  }

  lemma {:induction false} InsertSorted<T(!new)>(le: (T, T) -> bool, x: T, s: seq<T>)
    requires TotalOrder(le) && Sorted(le, s)
    ensures Sorted(le, Insert(le, x, s))
  {
    if s != [] && !le(x, s[0]) {
      InsertSorted(le, x, s[1..]);
      InsertMembers(le, x, s[1..]);
      forall y | y in Insert(le, x, s[1..]) ensures le(s[0], y) {
        assert y == x || y in s[1..];
      }
    }
  }

  lemma {:induction false} SortSorted<T(!new)>(le: (T, T) -> bool, s: seq<T>)
    requires TotalOrder(le)
    ensures Sorted(le, Sort(le, s))
  {
    if s == [] {
    } else {
      SortSorted(le, s[1..]);
      InsertSorted(le, s[0], Sort(le, s[1..]));
    }
  }

  /** A total order leaves one sorted arrangement of a multiset. */
  lemma {:induction false} SortedUnique<T(!new)>(le: (T, T) -> bool, s: seq<T>, t: seq<T>)
    requires TotalOrder(le) && Sorted(le, s) && Sorted(le, t)
    requires multiset(s) == multiset(t)
    ensures s == t
  {
    assert |s| == |multiset(s)| && |t| == |multiset(t)|;
    if s == [] {
    } else {
      SameHead(le, s, t);
      SameTail(s, t);
      SortedUnique(le, s[1..], t[1..]);
      assert s == [s[0]] + s[1..] && t == [t[0]] + t[1..];
    }
  }

  lemma SameHead<T(!new)>(le: (T, T) -> bool, s: seq<T>, t: seq<T>)
    requires TotalOrder(le) && Sorted(le, s) && Sorted(le, t) && multiset(s) == multiset(t) && s != [] && t != []
    ensures s[0] == t[0]
  {
    MultisetMember(s, t);
    assert s[0] in t && t[0] in s;
    assert le(s[0], t[0]) && le(t[0], s[0]);
  }

  lemma SameTail<T>(s: seq<T>, t: seq<T>)
    requires s != [] && t != [] && s[0] == t[0] && multiset(s) == multiset(t)
    ensures multiset(s[1..]) == multiset(t[1..])
  {
    assert s == [s[0]] + s[1..] && t == [t[0]] + t[1..];
    assert multiset(s[1..]) == multiset(s) - multiset{s[0]};
    assert multiset(t[1..]) == multiset(t) - multiset{t[0]};
  }

  lemma SortUnique<T(!new)>(le: (T, T) -> bool, s: seq<T>, t: seq<T>)
    requires TotalOrder(le) && Sorted(le, t)
    requires multiset(s) == multiset(t)
    ensures Sort(le, s) == t
  {
    SortSorted(le, s);
    SortPermutes(le, s);
    SortedUnique(le, Sort(le, s), t);
  }

  /** In a sorted sequence, the members that are at most `w` all come before any `s[i]` above `w`. */
  lemma CountBelow<T(!new)>(le: (T, T) -> bool, s: seq<T>, x: seq<T>, w: T, i: nat)
    requires TotalOrder(le) && Sorted(le, s)
    requires multiset(x) <= multiset(s)
    requires forall e :: e in x ==> le(e, w)
    requires i < |s| && !le(s[i], w)
    ensures |x| <= i
  {
    assert s == s[..i] + s[i..];
    forall e | e in s[i..] ensures e !in x {
      var j :| 0 <= j < |s[i..]| && s[i..][j] == e;
      assert le(s[i], s[i + j]);
    }
    forall e | e in multiset(x) ensures multiset(x)[e] <= multiset(s[..i])[e] {
      assert e in x;
      assert multiset(s)[e] == multiset(s[..i])[e] + multiset(s[i..])[e];
    }
    MultisetSize(multiset(x), multiset(s[..i]));
    assert |multiset(x)| == |x| && |multiset(s[..i])| == i;
  }

  lemma MultisetSize<T>(a: multiset<T>, b: multiset<T>)
    requires a <= b
    ensures |a| <= |b|
  {
    assert b == a + (b - a);
  }

  /** A left-over `w` of one part bounds the first entries of the merge. */
  lemma PartBound<T(!new)>(le: (T, T) -> bool, x: seq<T>, x': seq<T>, y: seq<T>, s: seq<T>, w: T, i: nat)
    requires TotalOrder(le) && Sorted(le, x + x') && w in x'
    requires Sorted(le, s) && multiset(s) == multiset(x) + multiset(y)
    requires i < |x| && i < |s|
    ensures le(s[i], w)
  {
    var k :| 0 <= k < |x'| && x'[k] == w;
    forall e | e in x ensures le(e, w) {
      var m :| 0 <= m < |x| && x[m] == e;
      assert (x + x')[m] == e && (x + x')[|x| + k] == w;
    }
    if !le(s[i], w) { CountBelow(le, s, x, w, i); }
  }

  /** What the merge of two cut parts keeps is at most everything that was cut or dropped. */
  lemma MergeBound<T(!new)>(le: (T, T) -> bool, x: seq<T>, x': seq<T>, y: seq<T>, y': seq<T>, top: seq<T>, rest: seq<T>)
    requires TotalOrder(le) && Sorted(le, x + x') && Sorted(le, y + y') && Sorted(le, top + rest)
    requires multiset(top + rest) == multiset(x) + multiset(y)
    requires x' != [] ==> |top| <= |x|
    requires y' != [] ==> |top| <= |y|
    ensures forall t, w :: t in top && w in rest + x' + y' ==> le(t, w)
  {
    forall t, w | t in top && w in rest + x' + y' ensures le(t, w) {
      var i :| 0 <= i < |top| && top[i] == t;
      assert (top + rest)[i] == t;
      if w in rest {
        var k :| 0 <= k < |rest| && rest[k] == w;
        assert (top + rest)[|top| + k] == w;
      } else if w in x' {
        PartBound(le, x, x', y, top + rest, w, i);
      } else {
        PartBound(le, y, y', x, top + rest, w, i);
      }
    }
  }

  lemma SortedConcat<T>(le: (T, T) -> bool, s: seq<T>, t: seq<T>)
    requires Sorted(le, s) && Sorted(le, t)
    requires forall x, y :: x in s && y in t ==> le(x, y)
    ensures Sorted(le, s + t)
  {
  }

  lemma SortSplit<T(!new)>(le: (T, T) -> bool, s: seq<T>, count: nat) returns (top: seq<T>, rest: seq<T>)
    requires TotalOrder(le)
    ensures top == Take(Sort(le, s), count) && Sorted(le, top + rest)
    ensures multiset(s) == multiset(top) + multiset(rest)
    ensures |top| <= count && (rest != [] ==> |top| == count)
  {
    SortSorted(le, s);
    SortPermutes(le, s);
    var sorted := Sort(le, s);
    top := Take(sorted, count);
    rest := sorted[|top|..];
    assert sorted == top + rest;
  }

  /** The smallest `count` of a union can be found among the smallest `count` of each part. */
  lemma TopOfUnion<T(!new)>(le: (T, T) -> bool, a: seq<T>, b: seq<T>, count: nat)
    requires TotalOrder(le)
    ensures Take(Sort(le, Take(Sort(le, a), count) + Take(Sort(le, b), count)), count)
         == Take(Sort(le, a + b), count)
  {
    var x, x' := SortSplit(le, a, count);
    var y, y' := SortSplit(le, b, count);
    var top, rest := SortSplit(le, x + y, count);
    assert multiset(x + y) == multiset(x) + multiset(y);
    assert multiset(top + rest) == multiset(x) + multiset(y);
    MergeBound(le, x, x', y, y', top, rest);
    var dropped := rest + x' + y';
    assert multiset(dropped) == multiset(rest) + multiset(x') + multiset(y');
    assert x' != [] || y' != [] ==> |top| == count by {
      assert |multiset(top + rest)| == |top| + |rest|;
      assert |multiset(x) + multiset(y)| == |x| + |y|;
    }
    Rearranged(multiset(x), multiset(x'), multiset(y), multiset(y'), multiset(top), multiset(rest));
    assert multiset(a + b) == multiset(a) + multiset(b);
    SortedPrefix(le, top, rest);
    TopIsPrefix(le, a + b, top, dropped, count);
  }

  lemma SortedPrefix<T>(le: (T, T) -> bool, s: seq<T>, t: seq<T>)
    requires Sorted(le, s + t)
    ensures Sorted(le, s)
  {
    assert forall i :: 0 <= i < |s| ==> (s + t)[i] == s[i];
  }

  lemma Rearranged<T>(x: multiset<T>, x': multiset<T>, y: multiset<T>, y': multiset<T>, top: multiset<T>,
                      rest: multiset<T>)
    requires x + y == top + rest
    ensures (x + x') + (y + y') == top + (rest + x' + y')
  {
    assert (x + x') + (y + y') == (x + y) + (x' + y');
    assert top + (rest + x' + y') == (top + rest) + (x' + y');
  }

  lemma TopIsPrefix<T(!new)>(le: (T, T) -> bool, u: seq<T>, top: seq<T>, dropped: seq<T>, count: nat)
    requires TotalOrder(le) && Sorted(le, top)
    requires forall t, w :: t in top && w in dropped ==> le(t, w)
    requires multiset(u) == multiset(top) + multiset(dropped)
    requires |top| == count || dropped == []
    requires |top| <= count
    ensures Take(Sort(le, u), count) == top
  {
    var tail := Sort(le, dropped);
    SortSorted(le, dropped);
    SortPermutes(le, dropped);
    MultisetMember(tail, dropped);
    SortedConcat(le, top, tail);
    SortUnique(le, u, top + tail);
  }
}
