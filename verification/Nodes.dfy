/** Endpoints, node identifiers and the orders the crawler sorts them by. */
module Nodes {
  import opened Common

  datatype Option<+T> = None | Some(value: T)

  datatype Ordering = Less | Equal | Greater

  /** A point of the monotonic clock, in nanoseconds. */
  type Instant = nat

  const MILLIS: nat := 1_000_000
  const SECONDS: nat := 1_000_000_000

  /** An octet, most significant bit first. */
  type Byte = b: seq<bool> | |b| == 8 witness seq(8, _ => false)

  const ZERO: Byte := [false, false, false, false, false, false, false, false]

  /** The order of two octets as numbers: their first differing bit decides. */
  predicate BitsLess(x: seq<bool>, y: seq<bool>) {
    x != [] && y != [] && (if x[0] != y[0] then y[0] else BitsLess(x[1..], y[1..]))
  }

  /** A 160-bit DHT identifier. */
  type NodeId = id: seq<Byte> | |id| == 20 witness seq(20, _ => ZERO)

  /** An IPv4 endpoint has four address octets, an IPv6 endpoint sixteen. */
  datatype RawAddr =
    | V4(octets: seq<Byte>, port: nat)
    | V6(octets: seq<Byte>, port: nat)
  {
    predicate WellFormed() {
      && (V4? ==> |octets| == 4)
      && (V6? ==> |octets| == 16)
      && port < 0x1_0000
    }
  }

  type Addr = a: RawAddr | a.WellFormed() witness V4([ZERO, ZERO, ZERO, ZERO], 0)

  datatype Node = Node(id: NodeId, addr: Addr)

  /** Which address families a socket pair admits. */
  datatype NetMode = Ipv4Only | Ipv6Only | DualStack

  /** The /24 or /64 an endpoint belongs to. */
  datatype Subnet = Net4(prefix: seq<Byte>) | Net6(prefix: seq<Byte>)

  function SubnetOf(a: Addr): (s: Subnet)
  {
    match a
    case V4(octets, _) => Net4(octets[..3])
    case V6(octets, _) => Net6(octets[..8])
  }

  /** Byte-wise lexicographic comparison, a proper prefix coming first. */
  function LexCmp(a: seq<Byte>, b: seq<Byte>): Ordering {
    if a == [] then (if b == [] then Equal else Less)
    else if b == [] then Greater
    else if BitsLess(a[0], b[0]) then Less
    else if BitsLess(b[0], a[0]) then Greater
    else LexCmp(a[1..], b[1..])
  }

  lemma {:induction false} BitsTotal(x: seq<bool>, y: seq<bool>)
    requires |x| == |y|
    ensures x == y || BitsLess(x, y) || BitsLess(y, x)
    ensures !(BitsLess(x, y) && BitsLess(y, x)) && !BitsLess(x, x)
  {
    if x == [] {
    } else {
      BitsTotal(x[1..], y[1..]);
      assert x == [x[0]] + x[1..] && y == [y[0]] + y[1..];
    }
  }

  lemma {:induction false} BitsTransitive(x: seq<bool>, y: seq<bool>, z: seq<bool>)
    requires |x| == |y| == |z| && BitsLess(x, y) && BitsLess(y, z)
    ensures BitsLess(x, z)
  {
    if x[0] == y[0] == z[0] { BitsTransitive(x[1..], y[1..], z[1..]); }
  }

  lemma {:induction false} LexEqual(a: seq<Byte>, b: seq<Byte>)
    ensures LexCmp(a, b) == Equal <==> a == b
  {
    if a != [] && b != [] {
      BitsTotal(a[0], b[0]);
      LexEqual(a[1..], b[1..]);
      assert a == [a[0]] + a[1..] && b == [b[0]] + b[1..];
    }
  }

  lemma {:induction false} LexFlip(a: seq<Byte>, b: seq<Byte>)
    ensures LexCmp(a, b) == Less <==> LexCmp(b, a) == Greater
  {
    if a != [] && b != [] {
      BitsTotal(a[0], b[0]);
      LexFlip(a[1..], b[1..]);
    }
  }

  lemma {:induction false} LexTransitive(a: seq<Byte>, b: seq<Byte>, c: seq<Byte>)
    requires LexCmp(a, b) == Less && LexCmp(b, c) == Less
    ensures LexCmp(a, c) == Less
  {
    if a == [] {
    } else {
      BitsTotal(a[0], b[0]);
      BitsTotal(b[0], c[0]);
      BitsTotal(a[0], c[0]);
      if BitsLess(a[0], b[0]) && BitsLess(b[0], c[0]) { BitsTransitive(a[0], b[0], c[0]); }
      if a[0] == b[0] == c[0] { LexTransitive(a[1..], b[1..], c[1..]); }
    }
  }

  /** The order of socket addresses: family, then address octets, then port. */
  predicate AddrLess(x: Addr, y: Addr) {
    || (x.V4? && y.V6?)
    || (x.V4? == y.V4? &&
        (|| LexCmp(x.octets, y.octets) == Less
         || (x.octets == y.octets && x.port < y.port)))
  }

  predicate AddrLe(x: Addr, y: Addr) {
    x == y || AddrLess(x, y)
  }

  lemma AddrTotal(x: Addr, y: Addr)
    ensures AddrLe(x, y) || AddrLe(y, x)
    ensures AddrLess(x, y) ==> x != y && !AddrLess(y, x)
  {
    LexEqual(x.octets, y.octets);
    LexFlip(x.octets, y.octets);
    LexFlip(y.octets, x.octets);
  }

  lemma AddrTransitive(x: Addr, y: Addr, z: Addr)
    requires AddrLess(x, y) && AddrLess(y, z)
    ensures AddrLess(x, z)
  {
    if LexCmp(x.octets, y.octets) == Less && LexCmp(y.octets, z.octets) == Less {
      LexTransitive(x.octets, y.octets, z.octets);
    }
  }

  function OctetValue(bits: seq<bool>): nat {
    if bits == [] then 0 else 2 * OctetValue(bits[..|bits| - 1]) + if bits[|bits| - 1] then 1 else 0
  }

  lemma {:induction false} OctetBound(bits: seq<bool>)
    ensures OctetValue(bits) < Pow2(|bits|)
  {
    if bits == [] {
    } else {
      OctetBound(bits[..|bits| - 1]);
    }
  }

  lemma ByteBound(b: Byte)
    ensures OctetValue(b) < 256
  {
    OctetBound(b);
    assert Pow2(4) == 16 && Pow2(8) == 256;
  }

  ghost function Endpoints(nodes: seq<Node>): set<Addr> {
    set n | n in nodes :: n.addr
  }

  /** The nodes of the families that are asked for, in order. */
  function OfFamily(nodes: seq<Node>, ipv6: Option<bool>): (r: seq<Node>) {
    if nodes == [] then [] else IfFamily(nodes[0], ipv6) + OfFamily(nodes[1..], ipv6)
  }

  function IfFamily(n: Node, ipv6: Option<bool>): seq<Node> {
    if ipv6.None? || n.addr.V6? == ipv6.value then [n] else []
  }

  /** Publicly routable endpoints with a port: no unspecified, loopback, private, link-local, multicast,
      broadcast, documentation, shared, benchmark or reserved address. */
  predicate IsValidNodeAddr(a: Addr) {
    && a.port != 0
    && (match a
        case V4(octets, _) =>
          && octets != [ZERO, ZERO, ZERO, ZERO]
          && IsValidV4(OctetValue(octets[0]), OctetValue(octets[1]), OctetValue(octets[2]))
        case V6(octets, _) => IsValidV6(octets))
  }

  /** By the first three octets; from 224 up lie multicast, reserved and broadcast addresses. */
  predicate IsValidV4(x: nat, y: nat, z: nat) {
    && x != 127 && x != 10 && x < 224
    && !(x == 172 && 16 <= y < 32) && !(x == 192 && y == 168) && !(x == 169 && y == 254)
    && !(x == 192 && y == 0 && z == 2) && !(x == 198 && y == 51 && z == 100) && !(x == 203 && y == 0 && z == 113)
    && !(x == 100 && 64 <= y < 128) && !(x == 198 && (y == 18 || y == 19))
  }

  predicate IsValidV6(octets: seq<Byte>)
    requires |octets| == 16
  {
    && !((forall i :: 0 <= i < 15 ==> octets[i] == ZERO) && OctetValue(octets[15]) <= 1)
    && OctetValue(octets[0]) !in {255, 252, 253}
    && !(OctetValue(octets[0]) == 254 && 128 <= OctetValue(octets[1]) < 192)
    && !(OctetValue(octets[0]) == 0x20 && OctetValue(octets[1]) == 0x01 &&
         OctetValue(octets[2]) == 0x0d && OctetValue(octets[3]) == 0xb8)
  }
}
