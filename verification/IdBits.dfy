/** Identifiers as bit strings: where two identifiers first differ decides both orders. */
module IdBits {
  import opened Common
  import opened Nodes

  function XorBits(x: seq<bool>, y: seq<bool>): (r: seq<bool>)
    requires |x| == |y|
    ensures |r| == |x|
  {
    seq(|x|, i requires 0 <= i < |x| => x[i] != y[i])
  }

  /** How many leading bits are clear. */
  function LeadingZeros(x: seq<bool>): (k: nat)
    ensures k <= |x|
    ensures k < |x| ==> x[k]
    ensures forall j :: 0 <= j < k ==> !x[j]
  {
    if x == [] || x[0] then 0 else 1 + LeadingZeros(x[1..])
  }

  /** Bit `i` of an identifier: the test of `id[i / 8] & (1 << (7 - i % 8))`. */
  predicate Bit(id: NodeId, i: nat)
    requires i < 160
  {
    id[i / 8][i % 8]
  }

  function Xor(a: NodeId, b: NodeId): (d: NodeId) {
    seq(20, i requires 0 <= i < 20 => XorBits(a[i], b[i]))
  }

  /** The XOR metric compared as unsigned big-endian numbers. */
  predicate Nearer(target: NodeId, a: NodeId, b: NodeId) {
    LexCmp(Xor(a, target), Xor(b, target)) == Less
  }

  /** The two identifiers agree on every bit before `p`. */
  predicate SamePrefix(a: NodeId, b: NodeId, p: nat)
    requires p <= 160
  {
    forall q :: 0 <= q < p ==> Bit(a, q) == Bit(b, q)
  }

  /** The two identifiers agree on every bit before `p` and differ at bit `p`. */
  predicate DifferAt(a: NodeId, b: NodeId, p: nat) {
    p < 160 && Bit(a, p) != Bit(b, p) && SamePrefix(a, b, p)
  }

  /** The first differing bit decides the order of two bit strings, before and after XOR with a third. */
  lemma {:induction false} BitsOrder(a: seq<bool>, b: seq<bool>, t: seq<bool>, k: nat)
    requires k < |a| == |b| == |t| && a[k] != b[k]
    requires forall j :: 0 <= j < k ==> a[j] == b[j]
    ensures BitsLess(a, b) <==> !a[k]
    ensures BitsLess(XorBits(a, t), XorBits(b, t)) <==> a[k] == t[k]
  {
    if k == 0 {
    } else {
      assert XorBits(a, t)[1..] == XorBits(a[1..], t[1..]);
      assert XorBits(b, t)[1..] == XorBits(b[1..], t[1..]);
      assert a[0] == b[0];
      BitsOrder(a[1..], b[1..], t[1..], k - 1);
    }
  }

  lemma Position(byte: nat, k: nat)
    requires k < 8
    ensures (byte * 8 + k) / 8 == byte && (byte * 8 + k) % 8 == k
  {
  }

  lemma ZeroXor(x: seq<bool>, y: seq<bool>)
    requires |x| == |y| && LeadingZeros(XorBits(x, y)) == |x|
    ensures x == y
  {
    forall j | 0 <= j < |x| ensures x[j] == y[j] {
      assert !XorBits(x, y)[j];
    }
  }

  /** The bit position that the trie builder computes from the first differing byte. */
  lemma FirstDifference(a: NodeId, b: NodeId, byte: nat)
    requires byte < 20 && a[..byte] == b[..byte] && a[byte] != b[byte]
    ensures LeadingZeros(XorBits(a[byte], b[byte])) < 8
    ensures DifferAt(a, b, byte * 8 + LeadingZeros(XorBits(a[byte], b[byte])))
  {
    var x := XorBits(a[byte], b[byte]);
    var k := LeadingZeros(x);
    if k == 8 { ZeroXor(a[byte], b[byte]); }
    Position(byte, k);
    forall q | 0 <= q < byte * 8 + k ensures Bit(a, q) == Bit(b, q) {
      if q / 8 < byte {
        assert a[..byte][q / 8] == b[..byte][q / 8];
      } else {
        assert q / 8 == byte && !x[q % 8];
      }
    }
  }

  lemma {:induction false} LexAt(a: seq<Byte>, b: seq<Byte>, p: nat)
    requires |a| == |b| && p < |a| && a[p] != b[p]
    requires forall i :: 0 <= i < p ==> a[i] == b[i]
    ensures LexCmp(a, b) == Less <==> BitsLess(a[p], b[p])
  {
    if p == 0 {
      BitsTotal(a[0], b[0]);
    } else {
      BitsTotal(a[0], a[0]);
      assert a[0] == b[0];
      LexAt(a[1..], b[1..], p - 1);
    }
  }

  lemma SameByte(a: NodeId, b: NodeId, i: nat)
    requires i < 20
    requires forall q :: i * 8 <= q < i * 8 + 8 ==> Bit(a, q) == Bit(b, q)
    ensures a[i] == b[i]
  {
    forall j | 0 <= j < 8 ensures a[i][j] == b[i][j] {
      Position(i, j);
      assert Bit(a, i * 8 + j) == Bit(b, i * 8 + j);
    }
  }

  /** The first differing bit decides the plain order and, relative to the target's bit, the XOR order. */
  lemma OrderAtBit(a: NodeId, b: NodeId, target: NodeId, p: nat)
    requires DifferAt(a, b, p)
    ensures a != b
    ensures LexCmp(a, b) == Less <==> !Bit(a, p)
    ensures Nearer(target, a, b) <==> Bit(a, p) == Bit(target, p)
  {
    var byte := p / 8;
    forall i | 0 <= i < byte ensures a[i] == b[i] {
      SameByte(a, b, i);
    }
    forall j | 0 <= j < p % 8 ensures a[byte][j] == b[byte][j] {
      Position(byte, j);
      assert Bit(a, byte * 8 + j) == Bit(b, byte * 8 + j);
    }
    BitsOrder(a[byte], b[byte], target[byte], p % 8);
    LexAt(a, b, byte);
    XorAt(a, b, target, byte);
  }

  lemma XorAt(a: NodeId, b: NodeId, target: NodeId, p: nat)
    requires p < 20 && a[p] != b[p]
    requires forall i :: 0 <= i < p ==> a[i] == b[i]
    ensures Nearer(target, a, b) <==> BitsLess(XorBits(a[p], target[p]), XorBits(b[p], target[p]))
  {
    var x, y := Xor(a, target), Xor(b, target);
    if x[p] == y[p] { XorBitsInjective(a[p], b[p], target[p]); }
    forall i | 0 <= i < p ensures x[i] == y[i] {
      assert a[i] == b[i];
    }
    LexAt(x, y, p);
  }

  lemma XorBitsInjective(a: seq<bool>, b: seq<bool>, t: seq<bool>)
    requires |a| == |b| == |t| && XorBits(a, t) == XorBits(b, t)
    ensures a == b
  {
    forall i | 0 <= i < |a| ensures a[i] == b[i] {
      assert XorBits(a, t)[i] == XorBits(b, t)[i];
    }
  }

  /** Two distinct identifiers have a first differing bit. */
  lemma DifferSomewhere(a: NodeId, b: NodeId) returns (p: nat)
    requires a != b
    ensures DifferAt(a, b, p)
  {
    var byte := FirstDifferingByte(a, b, 0);
    FirstDifference(a, b, byte);
    p := byte * 8 + LeadingZeros(XorBits(a[byte], b[byte]));
  }

  lemma {:induction false} FirstDifferingByte(a: NodeId, b: NodeId, from: nat) returns (byte: nat)
    requires from <= 20 && a[..from] == b[..from] && a[from..] != b[from..]
    ensures byte < 20 && a[..byte] == b[..byte] && a[byte] != b[byte]
    decreases 20 - from
  {
    if a[from] != b[from] {
      byte := from;
    } else {
      assert a[from..] == [a[from]] + a[from + 1..] && b[from..] == [b[from]] + b[from + 1..];
      assert a[..from + 1] == a[..from] + [a[from]] && b[..from + 1] == b[..from] + [b[from]];
      byte := FirstDifferingByte(a, b, from + 1);
    }
  }

  lemma XorInjective(a: NodeId, b: NodeId, target: NodeId)
    requires Xor(a, target) == Xor(b, target)
    ensures a == b
  {
    forall i | 0 <= i < 20 ensures a[i] == b[i] {
      assert Xor(a, target)[i] == Xor(b, target)[i];
      XorBitsInjective(a[i], b[i], target[i]);
    }
  }

  // ---------- identifiers as numbers ----------

  /** The number that bits spell, the first one counting most. */
  function BitsValue(bits: seq<bool>): nat {
    if bits == [] then 0 else (if bits[0] then Pow2(|bits| - 1) else 0) + BitsValue(bits[1..])
  }

  function Flat(bytes: seq<Byte>): (bits: seq<bool>)
    ensures |bits| == 8 * |bytes|
  {
    if bytes == [] then [] else bytes[0] + Flat(bytes[1..])
  }

  /** The number that an identifier is: 160 bits. */
  function Number(id: NodeId): nat {
    BitsValue(Flat(id))
  }

  lemma {:induction false} BitsBelow(bits: seq<bool>)
    ensures BitsValue(bits) < Pow2(|bits|)
  {
    if bits == [] {
      assert BitsValue(bits) == 0;
    } else {
      BitsBelow(bits[1..]);
    }
  }

  /** Bits of equal number are ordered as the numbers they spell. */
  lemma {:induction false} ValueOrder(x: seq<bool>, y: seq<bool>)
    requires |x| == |y|
    ensures BitsLess(x, y) <==> BitsValue(x) < BitsValue(y)
    ensures x == y <==> BitsValue(x) == BitsValue(y)
  {
    if x == [] {
      assert x == y;
    } else {
      ValueOrder(x[1..], y[1..]);
      BitsBelow(x[1..]);
      BitsBelow(y[1..]);
      assert x == [x[0]] + x[1..] && y == [y[0]] + y[1..];
    }
  }

  lemma {:induction false} BitsConcat(a: seq<bool>, x: seq<bool>, b: seq<bool>, y: seq<bool>)
    requires |a| == |b| && |x| == |y|
    ensures BitsLess(a + x, b + y) <==> BitsLess(a, b) || (a == b && BitsLess(x, y))
  {
    if a == [] {
      assert a + x == x && b + y == y;
    } else {
      BitsConcat(a[1..], x, b[1..], y);
      assert (a + x)[1..] == a[1..] + x && (b + y)[1..] == b[1..] + y;
      assert a == [a[0]] + a[1..] && b == [b[0]] + b[1..];
    }
  }

  /** Byte by byte is bit by bit. */
  lemma {:induction false} LexIsBits(a: seq<Byte>, b: seq<Byte>)
    requires |a| == |b|
    ensures LexCmp(a, b) == Less <==> BitsLess(Flat(a), Flat(b))
    ensures LexCmp(a, b) == Greater <==> BitsLess(Flat(b), Flat(a))
  {
    if a == [] {
      assert LexCmp(a, b) == Equal;
    } else {
      LexIsBits(a[1..], b[1..]);
      BitsConcat(a[0], Flat(a[1..]), b[0], Flat(b[1..]));
      BitsConcat(b[0], Flat(b[1..]), a[0], Flat(a[1..]));
      ValueOrder(a[0], b[0]);
      ValueOrder(b[0], a[0]);
    }
  }

  /** Comparing identifiers byte by byte is comparing the numbers that they are. */
  lemma LexIsNumeric(a: NodeId, b: NodeId)
    ensures LexCmp(a, b) == if Number(a) < Number(b) then Less else if Number(a) == Number(b) then Equal else Greater
  {
    LexIsBits(a, b);
    ValueOrder(Flat(a), Flat(b));
    ValueOrder(Flat(b), Flat(a));
  }

  /** The number that an endpoint is within its family: the address octets, then the port. */
  function EndpointNumber(a: Addr): nat {
    BitsValue(Flat(a.octets)) * 0x1_0000 + a.port
  }

  /** Endpoints are ordered IPv4 before IPv6, and within a family as the numbers that they are. */
  lemma AddrIsNumeric(x: Addr, y: Addr)
    ensures AddrLess(x, y) <==> if x.V4? == y.V4? then EndpointNumber(x) < EndpointNumber(y) else x.V4?
    ensures x == y <==> x.V4? == y.V4? && EndpointNumber(x) == EndpointNumber(y)
  {
    if x.V4? == y.V4? {
      LexIsBits(x.octets, y.octets);
      ValueOrder(Flat(x.octets), Flat(y.octets));
      FlatInjective(x.octets, y.octets);
    }
  }

  lemma {:induction false} FlatInjective(a: seq<Byte>, b: seq<Byte>)
    requires |a| == |b|
    ensures Flat(a) == Flat(b) <==> a == b
  {
    if a == [] {
      assert b == [];
    } else {
      FlatInjective(a[1..], b[1..]);
      assert a == [a[0]] + a[1..] && b == [b[0]] + b[1..];
      assert Flat(a)[..8] == a[0] && Flat(b)[..8] == b[0];
      assert Flat(a)[8..] == Flat(a[1..]) && Flat(b)[8..] == Flat(b[1..]);
    }
  }
}
