/** Which endpoints count as nodes, by the address blocks that are set aside. */
module AddrBlocks {
  import opened Common
  import opened Nodes
  import opened IdBits

  /** The addresses from one number to another. */
  datatype Block = Block(first: nat, last: nat)

  /** Unspecified, private, shared, loopback, link-local, private, documentation, private, benchmark, documentation,
      documentation; then multicast, reserved and broadcast. */
  const RESERVED_V4: seq<Block> := [
    Block(0, 0), Block(0x0a00_0000, 0x0aff_ffff), Block(0x6440_0000, 0x647f_ffff), Block(0x7f00_0000, 0x7fff_ffff),
    Block(0xa9fe_0000, 0xa9fe_ffff), Block(0xac10_0000, 0xac1f_ffff), Block(0xc000_0200, 0xc000_02ff),
    Block(0xc0a8_0000, 0xc0a8_ffff), Block(0xc612_0000, 0xc613_ffff), Block(0xc633_6400, 0xc633_64ff),
    Block(0xcb00_7100, 0xcb00_71ff), Block(0xe000_0000, 0xffff_ffff)]

  /** Unspecified and loopback, documentation, unique local, link-local, multicast. */
  const RESERVED_V6: seq<Block> := [
    Block(0, 1),
    Block(0x2001_0db8_0000_0000_0000_0000_0000_0000, 0x2001_0db8_ffff_ffff_ffff_ffff_ffff_ffff),
    Block(0xfc00_0000_0000_0000_0000_0000_0000_0000, 0xfdff_ffff_ffff_ffff_ffff_ffff_ffff_ffff),
    Block(0xfe80_0000_0000_0000_0000_0000_0000_0000, 0xfebf_ffff_ffff_ffff_ffff_ffff_ffff_ffff),
    Block(0xff00_0000_0000_0000_0000_0000_0000_0000, 0xffff_ffff_ffff_ffff_ffff_ffff_ffff_ffff)]

  ghost predicate Outside(number: nat, blocks: seq<Block>) {
    forall b :: b in blocks ==> !(b.first <= number <= b.last)
  }

  /** An endpoint counts as a node if and only if it has a port and its address, as a number, is in no block that is
      set aside. */
  lemma ValidOutsideBlocks(a: Addr)
    ensures IsValidNodeAddr(a) <==>
      a.port != 0 && Outside(BitsValue(Flat(a.octets)), if a.V4? then RESERVED_V4 else RESERVED_V6)
  {
    hide Outside, IsValidV4, IsValidV6, Flat, BitsValue, OctetValue;
    FlatValue(a.octets);
    if a.V4? { OutsideV4(a.octets); } else { OutsideV6(a.octets); }
  }

  // ---------- addresses octet by octet ----------

  ghost function Horner(octets: seq<Byte>): nat {
    if octets == [] then 0 else 256 * Horner(octets[..|octets| - 1]) + OctetValue(octets[|octets| - 1])
  }

  lemma {:induction false} LastBit(bits: seq<bool>, last: bool)
    ensures BitsValue(bits + [last]) == 2 * BitsValue(bits) + if last then 1 else 0
  {
    if bits == [] {
      assert bits + [last] == [last];
    } else {
      LastBit(bits[1..], last);
      assert (bits + [last])[1..] == bits[1..] + [last];
    }
  }

  lemma {:induction false} SameValue(bits: seq<bool>)
    ensures OctetValue(bits) == BitsValue(bits)
  {
    if bits == [] {
      assert OctetValue(bits) == 0;
    } else {
      var n := |bits| - 1;
      SameValue(bits[..n]);
      LastBit(bits[..n], bits[n]);
      assert bits == bits[..n] + [bits[n]];
    }
  }

  lemma {:induction false} LastOctet(bits: seq<bool>, last: Byte)
    ensures BitsValue(bits + last) == 256 * BitsValue(bits) + BitsValue(last)
  {
    if bits == [] {
      assert bits + last == last;
    } else {
      LastOctet(bits[1..], last);
      assert (bits + last)[1..] == bits[1..] + last;
      EightMore(|bits| - 1);
    }
  }

  lemma EightMore(n: nat)
    ensures Pow2(n + 8) == 256 * Pow2(n)
  {
    assert Pow2(n + 8) == 2 * Pow2(n + 7) && Pow2(n + 7) == 2 * Pow2(n + 6) && Pow2(n + 6) == 2 * Pow2(n + 5);
    assert Pow2(n + 5) == 2 * Pow2(n + 4) && Pow2(n + 4) == 2 * Pow2(n + 3) && Pow2(n + 3) == 2 * Pow2(n + 2);
    assert Pow2(n + 2) == 2 * Pow2(n + 1);
  }

  lemma {:induction false} FlatLast(octets: seq<Byte>, last: Byte)
    ensures Flat(octets + [last]) == Flat(octets) + last
  {
    if octets == [] {
      assert octets + [last] == [last];
    } else {
      FlatLast(octets[1..], last);
      assert (octets + [last])[1..] == octets[1..] + [last];
    }
  }

  /** The number that the bits of an address spell, octet by octet. */
  lemma {:induction false} FlatValue(octets: seq<Byte>)
    ensures BitsValue(Flat(octets)) == Horner(octets)
  {
    if octets == [] {
      assert BitsValue(Flat(octets)) == 0;
    } else {
      var n := |octets| - 1;
      FlatValue(octets[..n]);
      FlatLast(octets[..n], octets[n]);
      LastOctet(Flat(octets[..n]), octets[n]);
      SameValue(octets[n]);
      assert octets == octets[..n] + [octets[n]];
    }
  }

  /** An octet is zero if and only if its value is. */
  lemma ZeroOctet(b: Byte)
    ensures OctetValue(b) == 0 <==> b == ZERO
  {
    SameValue(b);
    SameValue(ZERO);
    ValueOrder(b, ZERO);
  }

  lemma {:induction false} ZeroNumber(octets: seq<Byte>)
    ensures Horner(octets) == 0 <==> forall i :: 0 <= i < |octets| ==> octets[i] == ZERO
  {
    if octets == [] {
      assert Horner(octets) == 0;
    } else {
      var n := |octets| - 1;
      ZeroNumber(octets[..n]);
      ZeroOctet(octets[n]);
      assert forall i :: 0 <= i < n ==> octets[i] == octets[..n][i];
    }
  }

  lemma HornerLast(octets: seq<Byte>, n: nat)
    requires n < |octets|
    ensures Horner(octets[..n + 1]) == 256 * Horner(octets[..n]) + OctetValue(octets[n]) && OctetValue(octets[n]) < 256
  {
    assert octets[..n + 1][..n] == octets[..n];
    ByteBound(octets[n]);
  }

  lemma FirstFour(octets: seq<Byte>)
    requires |octets| >= 4
    ensures Horner(octets[..4]) == 0x100_0000 * OctetValue(octets[0]) + 0x1_0000 * OctetValue(octets[1])
      + 0x100 * OctetValue(octets[2]) + OctetValue(octets[3])
    ensures forall i :: 0 <= i < 4 ==> OctetValue(octets[i]) < 256
  {
    hide OctetValue, Horner;
    HornerNone(octets);
    HornerLast(octets, 0);
    HornerLast(octets, 1);
    HornerLast(octets, 2);
    HornerLast(octets, 3);
  }

  lemma HornerNone(octets: seq<Byte>)
    ensures Horner(octets[..0]) == 0
  {
  }

  lemma OutsideV4(octets: seq<Byte>)
    requires |octets| == 4
    ensures Outside(Horner(octets), RESERVED_V4) <==>
      && octets != [ZERO, ZERO, ZERO, ZERO]
      && IsValidV4(OctetValue(octets[0]), OctetValue(octets[1]), OctetValue(octets[2]))
  {
    hide OctetValue, Horner;
    FirstFour(octets);
    assert octets[..4] == octets;
    ZeroNumber(octets);
    OutsideNumber(OctetValue(octets[0]), OctetValue(octets[1]), OctetValue(octets[2]), OctetValue(octets[3]));
  }

  lemma OutsideNumber(x: nat, y: nat, z: nat, w: nat)
    requires x < 256 && y < 256 && z < 256 && w < 256
    ensures var n := 0x100_0000 * x + 0x1_0000 * y + 0x100 * z + w;
      Outside(n, RESERVED_V4) <==> n != 0 && IsValidV4(x, y, z)
  {
  }

  ghost function Pow256(n: nat): nat {
    if n == 0 then 1 else 256 * Pow256(n - 1)
  }

  /** The first four octets fix the number up to the places that follow. */
  lemma {:induction false} Widened(octets: seq<Byte>, n: nat)
    requires |octets| == n + 4
    ensures Horner(octets[..4]) * Pow256(n) <= Horner(octets) < (Horner(octets[..4]) + 1) * Pow256(n)
  {
    if n == 0 {
      assert octets[..4] == octets;
    } else {
      Widened(octets[..n + 3], n - 1);
      HornerLast(octets, n + 3);
      assert octets[..n + 4] == octets && octets[..n + 3][..4] == octets[..4];
      Regroup(Horner(octets[..4]), Pow256(n - 1));
    }
  }

  lemma Regroup(h: nat, p: nat)
    ensures h * (256 * p) == 256 * (h * p) && (h + 1) * (256 * p) == 256 * ((h + 1) * p)
  {
  }

  lemma TwelvePlaces()
    ensures Pow256(12) == 0x1_0000_0000_0000_0000_0000_0000
  {
    assert Pow256(4) == 0x1_0000_0000;
    assert Pow256(8) == 0x1_0000_0000_0000_0000;
  }

  lemma OutsideV6(octets: seq<Byte>)
    requires |octets| == 16
    ensures Outside(Horner(octets), RESERVED_V6) <==> IsValidV6(octets)
  {
    hide OctetValue, Horner;
    FirstFour(octets);
    Widened(octets, 12);
    TwelvePlaces();
    HornerLast(octets, 15);
    assert octets[..16] == octets;
    ZeroNumber(octets[..15]);
    OutsideWide(Horner(octets), Horner(octets[..15]), OctetValue(octets[15]), OctetValue(octets[0]),
                OctetValue(octets[1]), OctetValue(octets[2]), OctetValue(octets[3]));
  }

  lemma OutsideWide(n: nat, most: nat, last: nat, x: nat, y: nat, z: nat, w: nat)
    requires n == 256 * most + last && last < 256 && x < 256 && y < 256 && z < 256 && w < 256
    requires var h := 0x100_0000 * x + 0x1_0000 * y + 0x100 * z + w;
      h * 0x1_0000_0000_0000_0000_0000_0000 <= n < (h + 1) * 0x1_0000_0000_0000_0000_0000_0000
    ensures Outside(n, RESERVED_V6) <==>
      && !(most == 0 && last <= 1) && x !in {255, 252, 253} && !(x == 254 && 128 <= y < 192)
      && !(x == 0x20 && y == 0x01 && z == 0x0d && w == 0xb8)
  {
  }
}
