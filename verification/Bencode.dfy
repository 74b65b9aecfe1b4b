/** Bencoding as the "bencoding" section of BEP 3 describes it, for byte strings and dictionaries: a writer, and a
    strict reader that accepts a dictionary only if its keys are in ascending order and a length only in its
    shortest form. */
module Bencoding {
  import opened Nodes

  type Octet = n: nat | n < 256

  datatype Value = Str(bytes: seq<Octet>) | Dict(items: seq<Item>)

  datatype Item = Item(key: seq<Octet>, value: Value)

  const DIGIT: Octet := 48
  const COLON: Octet := 58
  const OPEN: Octet := 100
  const CLOSE: Octet := 101

  predicate IsDigit(c: Octet) {
    48 <= c < 58
  }

  /** Byte-wise order of keys. */
  predicate Before(a: seq<Octet>, b: seq<Octet>) {
    if b == [] then false
    else if a == [] then true
    else a[0] < b[0] || (a[0] == b[0] && Before(a[1..], b[1..]))
  }

  /** A key comes before another if and only if it is a shorter beginning of it, or has the smaller octet at the first
      place where they differ. */
  lemma {:induction false} BeforeIff(a: seq<Octet>, b: seq<Octet>)
    ensures Before(a, b) <==> exists k: nat :: Parts(a, b, k)
  {
    if a == [] || b == [] {
      if b != [] { assert Parts(a, b, 0); }
    } else {
      BeforeIff(a[1..], b[1..]);
      if k: nat :| Parts(a, b, k) {
        if k > 0 {
          assert a[0] == a[..k][0] == b[..k][0] == b[0];
          assert a[1..][..k - 1] == a[..k][1..] == b[..k][1..] == b[1..][..k - 1];
          assert Parts(a[1..], b[1..], k - 1);
        }
      }
      if Before(a, b) {
        if a[0] < b[0] {
          assert Parts(a, b, 0);
        } else {
          var k: nat :| Parts(a[1..], b[1..], k);
          assert a[..k + 1] == [a[0]] + a[1..][..k] && b[..k + 1] == [b[0]] + b[1..][..k];
          assert Parts(a, b, k + 1);
        }
      }
    }
  }

  /** Two keys agree in their first `k` octets, and then `a` ends before `b` or has the smaller octet. */
  ghost predicate Parts(a: seq<Octet>, b: seq<Octet>, k: nat) {
    k <= |a| && k < |b| && a[..k] == b[..k] && (k < |a| ==> a[k] < b[k])
  }

  // ---------- decimal numbers ----------

  /** The shortest decimal form. */
  function Digits(n: nat): (s: seq<Octet>)
    ensures s != [] && forall i :: 0 <= i < |s| ==> IsDigit(s[i])
  {
    if n < 10 then [DIGIT + n] else Digits(n / 10) + [DIGIT + n % 10]
  }

  function Number(s: seq<Octet>): nat
    requires forall i :: 0 <= i < |s| ==> IsDigit(s[i])
  {
    if s == [] then 0 else assert IsDigit(s[|s| - 1]); 10 * Number(s[..|s| - 1]) + (s[|s| - 1] - DIGIT)
  }

  lemma {:induction false} NumberOfDigits(n: nat)
    ensures Number(Digits(n)) == n
  {
    if n >= 10 {
      NumberOfDigits(n / 10);
      assert Digits(n)[..|Digits(n)| - 1] == Digits(n / 10);
    } else {
      assert Digits(n)[..0] == [];
    }
  }

  /** No number but zero starts with a zero. */
  lemma {:induction false} NoLeadingZero(n: nat)
    ensures Digits(n)[0] == DIGIT ==> n == 0
    ensures n == 0 ==> |Digits(n)| == 1
  {
    if n >= 10 { NoLeadingZero(n / 10); }
  }

  /** Digits without a leading zero are the shortest form of the number they spell. */
  lemma {:induction false} DigitsOfNumber(s: seq<Octet>)
    requires s != [] && (forall i :: 0 <= i < |s| ==> IsDigit(s[i])) && (s[0] == DIGIT ==> |s| == 1)
    ensures Digits(Number(s)) == s
  {
    var n := |s| - 1;
    assert IsDigit(s[n]);
    if n == 0 {
      assert s[..0] == [] && s == [s[0]];
    } else {
      DigitsOfNumber(s[..n]);
      NoLeadingZero(Number(s[..n]));
      assert s == s[..n] + [s[n]];
    }
  }

  /** How many digits a text starts with. */
  function DigitRun(s: seq<Octet>): (k: nat)
    ensures k <= |s| && forall i :: 0 <= i < k ==> IsDigit(s[i])
    ensures k < |s| ==> !IsDigit(s[k])
  {
    if s == [] || !IsDigit(s[0]) then 0 else 1 + DigitRun(s[1..])
  }

  lemma RunIs(s: seq<Octet>, k: nat)
    requires k < |s| && (forall i :: 0 <= i < k ==> IsDigit(s[i])) && !IsDigit(s[k])
    ensures DigitRun(s) == k
  {
  }

  // ---------- reading ----------

  /** A byte string at the start of a text, and what follows it. */
  function ReadStr(s: seq<Octet>): (r: Option<(seq<Octet>, seq<Octet>)>)
    ensures r.Some? ==> |r.value.1| < |s|
  {
    var k := DigitRun(s);
    if k == 0 || k == |s| || s[k] != COLON || (s[0] == DIGIT && k > 1) then None
    else
      var n := Number(s[..k]);
      if k + 1 + n > |s| then None else Some((s[k + 1..k + 1 + n], s[k + 1 + n..]))
  }

  function ReadValue(s: seq<Octet>): (r: Option<(Value, seq<Octet>)>)
    ensures r.Some? ==> |r.value.1| < |s|
    decreases |s|, 0
  {
    if s != [] && s[0] == OPEN then
      var items := ReadItems(s[1..], None);
      if items.None? then None else Some((Dict(items.value.0), items.value.1))
    else
      var str := ReadStr(s);
      if str.None? then None else Some((Str(str.value.0), str.value.1))
  }

  /** The rest of a dictionary whose last key was `last`. */
  function ReadItems(s: seq<Octet>, last: Option<seq<Octet>>): (r: Option<(seq<Item>, seq<Octet>)>)
    ensures r.Some? ==> |r.value.1| < |s|
    decreases |s|, 1
  {
    if s == [] then None
    else if s[0] == CLOSE then Some(([], s[1..]))
    else
      var key := ReadStr(s);
      if key.None? || (last.Some? && !Before(last.value, key.value.0)) then None
      else
        var value := ReadValue(key.value.1);
        if value.None? then None
        else
          var rest := ReadItems(value.value.1, Some(key.value.0));
          if rest.None? then None
          else Some(([Item(key.value.0, value.value.0)] + rest.value.0, rest.value.1))
  }

  // ---------- writing ----------

  function WriteStr(b: seq<Octet>): seq<Octet> {
    Digits(|b|) + [COLON] + b
  }

  function Write(v: Value): seq<Octet> {
    match v
    case Str(b) => WriteStr(b)
    case Dict(items) => [OPEN] + WriteItems(items) + [CLOSE]
  }

  function WriteItems(items: seq<Item>): seq<Octet> {
    if items == [] then [] else WriteStr(items[0].key) + Write(items[0].value) + WriteItems(items[1..])
  }

  /** Keys ascend in every dictionary. */
  ghost predicate Ordered(v: Value) {
    match v
    case Str(_) => true
    case Dict(items) => OrderedItems(items, None)
  }

  ghost predicate OrderedItems(items: seq<Item>, last: Option<seq<Octet>>) {
    items == [] ||
    (&& (last.Some? ==> Before(last.value, items[0].key)) && Ordered(items[0].value)
     && OrderedItems(items[1..], Some(items[0].key)))
  }

  // ---------- what is written is read back ----------

  lemma ReadWrittenStr(b: seq<Octet>, rest: seq<Octet>)
    ensures ReadStr(WriteStr(b) + rest) == Some((b, rest))
    ensures (WriteStr(b) + rest)[0] != OPEN && (WriteStr(b) + rest)[0] != CLOSE
  {
    var s := WriteStr(b) + rest;
    var d := Digits(|b|);
    assert forall i :: 0 <= i < |d| ==> s[i] == d[i];
    assert s[|d|] == COLON;
    RunIs(s, |d|);
    NumberOfDigits(|b|);
    NoLeadingZero(|b|);
    assert s[..|d|] == d;
    assert s[|d| + 1..|d| + 1 + |b|] == b;
    assert s[|d| + 1 + |b|..] == rest;
  }

  /** Reading undoes writing, whatever follows. */
  lemma {:induction false} ReadWritten(v: Value, rest: seq<Octet>)
    requires Ordered(v)
    ensures ReadValue(Write(v) + rest) == Some((v, rest))
    decreases v, if v.Dict? then |v.items| + 1 else 0
  {
    hide ReadItems, ReadValue, ReadStr, WriteItems, WriteStr, OrderedItems, Digits;
    match v
    case Str(b) =>
      ReadWrittenStr(b, rest);
      ReadPlain(WriteStr(b) + rest, b, rest);
    case Dict(items) =>
      ReadWrittenItems(items, None, rest, v);
      assert (Write(v) + rest)[1..] == WriteItems(items) + ([CLOSE] + rest);
      ReadOpened(Write(v) + rest, items, rest);
  }

  lemma ReadPlain(s: seq<Octet>, b: seq<Octet>, rest: seq<Octet>)
    requires s != [] && s[0] != OPEN && ReadStr(s) == Some((b, rest))
    ensures ReadValue(s) == Some((Str(b), rest))
  {
    hide ReadStr;
  }

  lemma ReadOpened(s: seq<Octet>, items: seq<Item>, rest: seq<Octet>)
    requires s != [] && s[0] == OPEN && ReadItems(s[1..], None) == Some((items, rest))
    ensures ReadValue(s) == Some((Dict(items), rest))
  {
    hide ReadItems;
  }

  lemma {:induction false} ReadWrittenItems(items: seq<Item>, last: Option<seq<Octet>>, rest: seq<Octet>, v: Value)
    requires OrderedItems(items, last) && (forall i :: i in items ==> i.value < v)
    ensures ReadItems(WriteItems(items) + ([CLOSE] + rest), last) == Some((items, rest))
    decreases v, |items|
  {
    var s := WriteItems(items) + ([CLOSE] + rest);
    if items == [] {
      assert s == [CLOSE] + rest;
    } else {
      var tail := WriteItems(items[1..]) + ([CLOSE] + rest);
      var mid := Write(items[0].value) + tail;
      assert s == WriteStr(items[0].key) + mid;
      ReadWrittenStr(items[0].key, mid);
      assert items[0] in items;
      ReadWritten(items[0].value, tail);
      ReadWrittenItems(items[1..], Some(items[0].key), rest, v);
      assert [items[0]] + items[1..] == items;
    }
  }

  // ---------- what is read was written ----------

  lemma WrittenStr(s: seq<Octet>)
    requires ReadStr(s).Some?
    ensures s == WriteStr(ReadStr(s).value.0) + ReadStr(s).value.1
  {
    var k := DigitRun(s);
    DigitsOfNumber(s[..k]);
    var n := Number(s[..k]);
    assert s == s[..k] + [s[k]] + s[k + 1..k + 1 + n] + s[k + 1 + n..];
  }

  /** The reader accepts nothing but what the writer writes of a value with ascending keys, so that a value has one
      form only. */
  lemma {:induction false} WrittenValue(s: seq<Octet>)
    requires ReadValue(s).Some?
    ensures Ordered(ReadValue(s).value.0) && s == Write(ReadValue(s).value.0) + ReadValue(s).value.1
    decreases |s|, 0
  {
    hide ReadItems, ReadStr, WriteItems, WriteStr, OrderedItems;
    if s != [] && s[0] == OPEN {
      WrittenItems(s[1..], None);
      var (items, rest) := ReadItems(s[1..], None).value;
      assert s == [OPEN] + s[1..];
      assert [OPEN] + (WriteItems(items) + ([CLOSE] + rest)) == ([OPEN] + WriteItems(items) + [CLOSE]) + rest;
    } else {
      WrittenStr(s);
    }
  }

  lemma {:induction false} WrittenItems(s: seq<Octet>, last: Option<seq<Octet>>)
    requires ReadItems(s, last).Some?
    ensures OrderedItems(ReadItems(s, last).value.0, last)
    ensures s == WriteItems(ReadItems(s, last).value.0) + ([CLOSE] + ReadItems(s, last).value.1)
    decreases |s|, 1
  {
    hide ReadStr, WriteStr, ReadValue;
    if s[0] == CLOSE {
      assert s == [] + ([CLOSE] + s[1..]);
    } else {
      var key := ReadStr(s).value;
      WrittenStr(s);
      WrittenValue(key.1);
      var value := ReadValue(key.1).value;
      WrittenItems(value.1, Some(key.0));
      var rest := ReadItems(value.1, Some(key.0)).value;
      var items := [Item(key.0, value.0)] + rest.0;
      assert items[1..] == rest.0;
      assert WriteStr(key.0) + (Write(value.0) + (WriteItems(rest.0) + ([CLOSE] + rest.1))) ==
             (WriteStr(key.0) + Write(value.0) + WriteItems(rest.0)) + ([CLOSE] + rest.1);
    }
  }
}
