/** Replies to get_peers and find_node: the compact form of nodes ("Contact Encoding" section of BEP 5), the reply
    around them, and the reader of replies. */
module Krpc {
  import opened Nodes
  import opened Bencoding

  // ---------- octets ----------

  function BitsOf(v: nat, n: nat): (bits: seq<bool>)
    ensures |bits| == n
  {
    if n == 0 then [] else BitsOf(v / 2, n - 1) + [v % 2 == 1]
  }

  lemma {:induction false} BitsBack(bits: seq<bool>)
    ensures BitsOf(OctetValue(bits), |bits|) == bits
  {
    if bits == [] {
    } else {
      var front := bits[..|bits| - 1];
      BitsBack(front);
      assert OctetValue(bits) / 2 == OctetValue(front);
      assert bits == front + [bits[|bits| - 1]];
    }
  }

  function ToOctet(b: Byte): Octet {
    ByteBound(b);
    OctetValue(b)
  }

  function ToByte(o: Octet): Byte {
    BitsOf(o, 8)
  }

  function ToOctets(s: seq<Byte>): (r: seq<Octet>)
    ensures |r| == |s|
  {
    seq(|s|, i requires 0 <= i < |s| => ToOctet(s[i]))
  }

  function ToBytes(s: seq<Octet>): (r: seq<Byte>)
    ensures |r| == |s|
  {
    seq(|s|, i requires 0 <= i < |s| => ToByte(s[i]))
  }

  lemma BytesBack(s: seq<Byte>)
    ensures ToBytes(ToOctets(s)) == s
  {
    forall i | 0 <= i < |s| ensures ToByte(ToOctet(s[i])) == s[i] {
      BitsBack(s[i]);
    }
  }

  // ---------- compact nodes ----------

  function Port(p: nat): (r: seq<Octet>)
    requires p < 0x1_0000
    ensures |r| == 2
  {
    [p / 256, p % 256]
  }

  function Compact(n: Node): seq<Octet> {
    ToOctets(n.id) + ToOctets(n.addr.octets) + Port(n.addr.port)
  }

  function Width(ipv6: bool): nat {
    if ipv6 then 38 else 26
  }

  lemma CompactWidth(n: Node)
    ensures |Compact(n)| == Width(n.addr.V6?)
  {
  }

  /** The node a compact form stands for. */
  function Expand(s: seq<Octet>, ipv6: bool): Node
    requires |s| == Width(ipv6)
  {
    var w := Width(ipv6);
    var octets, port := ToBytes(s[20..w - 2]), (s[w - 2] as int) * 256 + s[w - 1] as int;
    Node(ToBytes(s[..20]), if ipv6 then V6(octets, port) else V4(octets, port))
  }

  lemma ExpandCompact(n: Node)
    ensures |Compact(n)| == Width(n.addr.V6?) && Expand(Compact(n), n.addr.V6?) == n
  {
    var s, w := Compact(n), Width(n.addr.V6?);
    assert s[..20] == ToOctets(n.id) && s[20..w - 2] == ToOctets(n.addr.octets);
    assert s[w - 2] == n.addr.port / 256 && s[w - 1] == n.addr.port % 256;
    BytesBack(n.id);
    BytesBack(n.addr.octets);
  }

  /** The valid nodes, in order. */
  function Valid(nodes: seq<Node>): seq<Node> {
    if nodes == [] then []
    else (if IsValidNodeAddr(nodes[0].addr) then [nodes[0]] else []) + Valid(nodes[1..])
  }

  function CompactAll(nodes: seq<Node>): seq<Octet> {
    if nodes == [] then [] else Compact(nodes[0]) + CompactAll(nodes[1..])
  }

  lemma {:induction false} CompactLength(nodes: seq<Node>, ipv6: bool)
    requires forall n :: n in nodes ==> n.addr.V6? == ipv6
    ensures |CompactAll(nodes)| == |nodes| * Width(ipv6)
  {
    if nodes == [] {
    } else {
      assert nodes[0] in nodes;
      assert forall n :: n in nodes[1..] ==> n in nodes;
      CompactWidth(nodes[0]);
      CompactLength(nodes[1..], ipv6);
    }
  }

  lemma {:induction false} FamilyOf(nodes: seq<Node>, ipv6: bool)
    ensures forall n :: n in OfFamily(nodes, Some(ipv6)) ==> n.addr.V6? == ipv6
  {
    if nodes == [] {
    } else {
      FamilyOf(nodes[1..], ipv6);
    }
  }

  /** The valid nodes of a compact list; a list whose length is not a multiple of a node's is ignored. */
  function Decoded(s: seq<Octet>, ipv6: bool): seq<Node>
    decreases |s|
  {
    var w := Width(ipv6);
    if |s| < w then []
    else
      var n := Expand(s[..w], ipv6);
      (if IsValidNodeAddr(n.addr) then [n] else []) + Decoded(s[w..], ipv6)
  }

  /** Decoding gives back the valid nodes that were encoded, in order. */
  lemma {:induction false} DecodedCompact(nodes: seq<Node>, ipv6: bool)
    requires forall n :: n in nodes ==> n.addr.V6? == ipv6
    ensures Decoded(CompactAll(nodes), ipv6) == Valid(nodes)
  {
    if nodes == [] {
    } else {
      var s, w := CompactAll(nodes), Width(ipv6);
      assert nodes[0] in nodes;
      assert forall n :: n in nodes[1..] ==> n in nodes;
      ExpandCompact(nodes[0]);
      DecodedCompact(nodes[1..], ipv6);
      hide Expand, Compact, IsValidNodeAddr;
      assert s[..w] == Compact(nodes[0]) && s[w..] == CompactAll(nodes[1..]);
    }
  }

  // ---------- numbers ----------

  function PowerOfTen(n: nat): nat {
    if n == 0 then 1 else 10 * PowerOfTen(n - 1)
  }

  method PutDigit(digits: array<Octet>, cursor: nat, digit: Octet)
    requires cursor < digits.Length
    modifies digits
    ensures digits[cursor..] == [digit] + old(digits[cursor + 1..])
  {
    digits[cursor] := digit;
  }

  /** Append a number in decimal: its digits are put into an array from the back. */
  method PushUsize(buffer: seq<Octet>, value: nat) returns (r: seq<Octet>)
    requires value < 0x1_0000_0000_0000_0000
    ensures r == buffer + Digits(value)
  {
    TwentyDigits(value);
    hide PowerOfTen, Digits;
    var digits := new Octet[20];
    var cursor: nat, left: nat := 20, value;
    var more := true;
    while more
      invariant cursor <= 20 && left < PowerOfTen(cursor) && (cursor == 20 ==> more) && (left != 0 ==> more)
      invariant (more && cursor < 20) ==> left != 0
      invariant Digits(value) == (if more then Digits(left) else []) + digits[cursor..]
      decreases more, left
    {
      NextDigit(left, cursor);
      cursor := cursor - 1;
      LastDigit(left, digits[cursor + 1..]);
      PutDigit(digits, cursor, DIGIT + left % 10);
      left := left / 10;
      more := left != 0;
    }
    assert [] + digits[cursor..] == digits[cursor..];
    r := buffer + digits[cursor..];
  }

  lemma NextDigit(left: nat, cursor: nat)
    requires left < PowerOfTen(cursor) && (cursor == 20 || left != 0)
    ensures cursor > 0 && left / 10 < PowerOfTen(cursor - 1)
  {
  }

  lemma LastDigit(left: nat, tail: seq<Octet>)
    ensures Digits(left) + tail == (if left / 10 == 0 then [] else Digits(left / 10)) + ([DIGIT + left % 10] + tail)
  {
  }

  lemma TwentyDigits(value: nat)
    requires value < 0x1_0000_0000_0000_0000
    ensures value < PowerOfTen(20)
  {
    assert PowerOfTen(4) == 10_000;
    assert PowerOfTen(8) == 100_000_000;
    assert PowerOfTen(12) == 1_000_000_000_000;
    assert PowerOfTen(16) == 10_000_000_000_000_000;
    assert PowerOfTen(20) == 100_000_000_000_000_000_000;
  }

  // ---------- replies ----------

  const KEY_ID: seq<Octet> := [105, 100]
  const KEY_NODES: seq<Octet> := [110, 111, 100, 101, 115]
  const KEY_NODES6: seq<Octet> := [110, 111, 100, 101, 115, 54]
  const KEY_TOKEN: seq<Octet> := [116, 111, 107, 101, 110]
  const KEY_R: seq<Octet> := [114]
  const KEY_T: seq<Octet> := [116]
  const KEY_Y: seq<Octet> := [121]

  function NodesKey(ipv6: bool): seq<Octet> {
    if ipv6 then KEY_NODES6 else KEY_NODES
  }

  /** The reply's own dictionary; the nodes are left out when there are none. */
  function Body(id: NodeId, token: seq<Octet>, compact: seq<Octet>, ipv6: bool): Value {
    Dict([Item(KEY_ID, Str(ToOctets(id)))]
         + (if compact == [] then [] else [Item(NodesKey(ipv6), Str(compact))])
         + [Item(KEY_TOKEN, Str(token))])
  }

  function Reply(tid: seq<Octet>, id: NodeId, token: seq<Octet>, nodes: seq<Node>, ipv6: bool): Value {
    Dict([Item(KEY_R, Body(id, token, CompactAll(OfFamily(nodes, Some(ipv6))), ipv6)), Item(KEY_T, Str(tid)),
        Item(KEY_Y, Str(KEY_R))])
  }

  lemma KeysAscend()
    ensures Before(KEY_ID, KEY_NODES) && Before(KEY_ID, KEY_NODES6) && Before(KEY_ID, KEY_TOKEN)
    ensures Before(KEY_NODES, KEY_TOKEN) && Before(KEY_NODES6, KEY_TOKEN) && Before(KEY_R, KEY_T)
    ensures Before(KEY_T, KEY_Y)
  {
  }

  /** Items one after another. */
  lemma OneMoreOrdered(item: Item, rest: seq<Item>, last: Option<seq<Octet>>)
    requires Ordered(item.value) && OrderedItems(rest, Some(item.key)) && (last.Some? ==> Before(last.value, item.key))
    ensures OrderedItems([item] + rest, last)
  {
    assert ([item] + rest)[1..] == rest;
  }

  lemma BodyOrdered(id: NodeId, token: seq<Octet>, compact: seq<Octet>, ipv6: bool)
    ensures Ordered(Body(id, token, compact, ipv6))
  {
    KeysAscend();
    var first, mid, last := Item(KEY_ID, Str(ToOctets(id))), Item(NodesKey(ipv6), Str(compact)),
        Item(KEY_TOKEN, Str(token));
    hide Before, OrderedItems;
    NoneOrdered(Some(KEY_TOKEN));
    assert [last] + [] == [last] && [mid] + [last] == [mid, last];
    OneMoreOrdered(last, [], Some(KEY_ID));
    OneMoreOrdered(last, [], Some(NodesKey(ipv6)));
    OneMoreOrdered(mid, [last], Some(KEY_ID));
    OneMoreOrdered(first, if compact == [] then [last] else [mid, last], None);
    assert Body(id, token, compact, ipv6).items == [first] + (if compact == [] then [last] else [mid, last]);
  }

  lemma NoneOrdered(last: Option<seq<Octet>>)
    ensures OrderedItems([], last)
  {
  }

  /** The reply's keys ascend, in both of its dictionaries. */
  lemma ReplyOrdered(tid: seq<Octet>, id: NodeId, token: seq<Octet>, nodes: seq<Node>, ipv6: bool)
    ensures Ordered(Reply(tid, id, token, nodes, ipv6))
  {
    KeysAscend();
    BodyOrdered(id, token, CompactAll(OfFamily(nodes, Some(ipv6))), ipv6);
    hide Before, OrderedItems, Body, OfFamily, CompactAll;
    var a, b, c := Item(KEY_R, Body(id, token, CompactAll(OfFamily(nodes, Some(ipv6))), ipv6)), Item(KEY_T, Str(tid)),
        Item(KEY_Y, Str(KEY_R));
    assert [c] + [] == [c] && [b] + [c] == [b, c] && [a] + [b, c] == [a, b, c];
    NoneOrdered(Some(KEY_Y));
    OneMoreOrdered(c, [], Some(KEY_T));
    OneMoreOrdered(b, [c], Some(KEY_R));
    OneMoreOrdered(a, [b, c], None);
  }

  /** A field of a dictionary. */
  function Field(items: seq<Item>, key: seq<Octet>): Option<Value> {
    if items == [] then None
    else if items[0].key == key then Some(items[0].value)
    else Field(items[1..], key)
  }

  function Bytes(v: Option<Value>): Option<seq<Octet>> {
    if v.Some? && v.value.Str? then Some(v.value.bytes) else None
  }

  /** What a reader of a reply finds in it: the compact nodes of either family. */
  datatype Response = Response(nodes: Option<seq<Octet>>, nodes6: Option<seq<Octet>>)

  function ResponseOf(v: Value): Response {
    if v.Str? then Response(None, None)
    else
      var body := Field(v.items, KEY_R);
      if body.None? || body.value.Str? then Response(None, None)
      else Response(Bytes(Field(body.value.items, KEY_NODES)), Bytes(Field(body.value.items, KEY_NODES6)))
  }

  /** The nodes of one field: none if it is missing or of an impossible length. */
  function Listed(field: Option<seq<Octet>>, ipv6: bool): seq<Node> {
    if field.None? || |field.value| % Width(ipv6) != 0 then [] else Decoded(field.value, ipv6)
  }

  /** The nodes a reader is told of. */
  function Visited(r: Response, mode: NetMode): seq<Node> {
    (if mode == Ipv6Only then [] else Listed(r.nodes, false)) + (if mode == Ipv4Only then []
                                                                 else Listed(r.nodes6, true))
  }

  /** Read the nodes of a reply, chunk by chunk. */
  method ForEachResponseNode(r: Response, mode: NetMode) returns (visited: seq<Node>, count: nat)
    ensures visited == Visited(r, mode) && count == |visited|
  {
    visited, count := [], 0;
    if mode != Ipv6Only && r.nodes.Some? && |r.nodes.value| % 26 == 0 {
      visited := VisitChunks(r.nodes.value, false);
    }
    if mode != Ipv4Only && r.nodes6.Some? && |r.nodes6.value| % 38 == 0 {
      var sixes := VisitChunks(r.nodes6.value, true);
      visited := visited + sixes;
    }
    count := |visited|;
  }

  method VisitChunks(s: seq<Octet>, ipv6: bool) returns (visited: seq<Node>)
    ensures visited == Decoded(s, ipv6)
  {
    hide Expand, IsValidNodeAddr, Decoded;
    visited := [];
    var w, at := Width(ipv6), 0;
    assert s[0..] == s;
    while at + w <= |s|
      invariant 0 <= at <= |s| && Decoded(s, ipv6) == visited + Decoded(s[at..], ipv6)
      decreases |s| - at
    {
      var n := Expand(s[at..at + w], ipv6);
      DecodedNext(s, at, ipv6);
      if IsValidNodeAddr(n.addr) {
        visited := visited + [n];
      }
      at := at + w;
    }
    DecodedShort(s[at..], ipv6);
  }

  lemma DecodedNext(s: seq<Octet>, at: nat, ipv6: bool)
    requires at + Width(ipv6) <= |s|
    ensures var n := Expand(s[at..at + Width(ipv6)], ipv6);
      Decoded(s[at..], ipv6) == (if IsValidNodeAddr(n.addr) then [n] else []) + Decoded(s[at + Width(ipv6)..], ipv6)
  {
    hide Expand, IsValidNodeAddr;
    assert s[at..][..Width(ipv6)] == s[at..at + Width(ipv6)] && s[at..][Width(ipv6)..] == s[at + Width(ipv6)..];
  }

  lemma DecodedShort(s: seq<Octet>, ipv6: bool)
    requires |s| < Width(ipv6)
    ensures Decoded(s, ipv6) == []
  {
  }

  lemma FieldStep(item: Item, rest: seq<Item>, key: seq<Octet>)
    ensures Field([item] + rest, key) == if item.key == key then Some(item.value) else Field(rest, key)
  {
    assert ([item] + rest)[1..] == rest;
  }

  lemma BodyFields(id: NodeId, token: seq<Octet>, compact: seq<Octet>, ipv6: bool, key: seq<Octet>)
    requires key == KEY_NODES || key == KEY_NODES6
    ensures Field(Body(id, token, compact, ipv6).items, key) ==
              if compact == [] || key != NodesKey(ipv6) then None else Some(Str(compact))
  {
    var first, mid, last := Item(KEY_ID, Str(ToOctets(id))), Item(NodesKey(ipv6), Str(compact)),
        Item(KEY_TOKEN, Str(token));
    hide Field;
    FieldStep(last, [], key);
    FieldStep(mid, [last], key);
    FieldStep(first, if compact == [] then [last] else [mid, last], key);
    NoField(key);
    assert |KEY_ID| == 2 && |KEY_NODES| == 5 && |KEY_NODES6| == 6 && KEY_TOKEN[0] == 116 && KEY_NODES[0] == 110;
    assert [last] + [] == [last] && [mid] + [last] == [mid, last];
    assert Body(id, token, compact, ipv6).items == [first] + (if compact == [] then [last] else [mid, last]);
  }

  lemma NoField(key: seq<Octet>)
    ensures Field([], key) == None
  {
  }

  /** Every reply is one bencoded dictionary with ascending keys. A reader whose mode admits the family finds in it
      exactly the valid nodes of that family, in order; any other reader finds none. */
  lemma ReplyReadBack(tid: seq<Octet>, id: NodeId, token: seq<Octet>, nodes: seq<Node>, ipv6: bool, mode: NetMode)
    ensures var v := Reply(tid, id, token, nodes, ipv6);
      && ReadValue(Write(v)) == Some((v, []))
      && Visited(ResponseOf(v), mode) ==
           if mode == DualStack || mode == (if ipv6 then Ipv6Only else Ipv4Only) then Valid(OfFamily(nodes, Some(ipv6)))
           else []
  {
    hide ReadValue, Write, Ordered, Reply, ResponseOf, OfFamily, Valid, Visited;
    var v := Reply(tid, id, token, nodes, ipv6);
    ReplyOrdered(tid, id, token, nodes, ipv6);
    ReadWritten(v, []);
    assert Write(v) + [] == Write(v);
    ReplyNodes(tid, id, token, nodes, ipv6);
    FamilyOf(nodes, ipv6);
    FamilyRead(OfFamily(nodes, Some(ipv6)), ipv6, mode);
  }

  /** The nodes fields of a reply: the family's nodes in their own field, if there are any. */
  lemma ReplyNodes(tid: seq<Octet>, id: NodeId, token: seq<Octet>, nodes: seq<Node>, ipv6: bool)
    ensures ResponseOf(Reply(tid, id, token, nodes, ipv6)) == Carrying(CompactAll(OfFamily(nodes, Some(ipv6))), ipv6)
  {
    var compact := CompactAll(OfFamily(nodes, Some(ipv6)));
    BodyFields(id, token, compact, ipv6, KEY_NODES);
    BodyFields(id, token, compact, ipv6, KEY_NODES6);
    assert |KEY_NODES| == 5 && |KEY_NODES6| == 6;
    hide Body, OfFamily, CompactAll;
    assert Field(Reply(tid, id, token, nodes, ipv6).items, KEY_R) == Some(Body(id, token, compact, ipv6));
  }

  function Carrying(compact: seq<Octet>, ipv6: bool): Response {
    var field := if compact == [] then None else Some(compact);
    if ipv6 then Response(None, field) else Response(field, None)
  }

  lemma FamilyRead(family: seq<Node>, ipv6: bool, mode: NetMode)
    requires forall n :: n in family ==> n.addr.V6? == ipv6
    ensures Visited(Carrying(CompactAll(family), ipv6), mode) ==
      if mode == DualStack || mode == (if ipv6 then Ipv6Only else Ipv4Only) then Valid(family) else []
  {
    CompactLength(family, ipv6);
    DecodedCompact(family, ipv6);
    WidthDivides(|family|, ipv6);
    NoNodes(ipv6);
    hide CompactAll, Decoded, Valid;
  }

  /** A reply with nodes of both families is read back as the valid ones of the families admitted, IPv4 first. */
  lemma BothRead(fours: seq<Node>, sixes: seq<Node>, mode: NetMode)
    requires (forall n :: n in fours ==> n.addr.V4?) && forall n :: n in sixes ==> n.addr.V6?
    ensures Visited(Response(Some(CompactAll(fours)), Some(CompactAll(sixes))), mode) ==
      (if mode == Ipv6Only then [] else Valid(fours)) + (if mode == Ipv4Only then [] else Valid(sixes))
  {
    CompactLength(fours, false);
    CompactLength(sixes, true);
    DecodedCompact(fours, false);
    DecodedCompact(sixes, true);
    WidthDivides(|fours|, false);
    WidthDivides(|sixes|, true);
    hide CompactAll, Decoded, Valid;
  }

  lemma WidthDivides(n: nat, ipv6: bool)
    ensures (n * Width(ipv6)) % Width(ipv6) == 0
  {
    if ipv6 {
      assert (n * 38) % 38 == 0;
    } else {
      assert (n * 26) % 26 == 0;
    }
  }

  lemma NoNodes(ipv6: bool)
    ensures Decoded([], ipv6) == []
  {
  }

  // ---------- writing replies ----------

  /** `d1:rd2:id20:`, `5:token8:` and so on, as octets. */
  const HEAD: seq<Octet> := [100, 49, 58, 114, 100, 50, 58, 105, 100, 50, 48, 58]
  const NODES_HEAD: seq<Octet> := [53, 58, 110, 111, 100, 101, 115]
  const NODES6_HEAD: seq<Octet> := [54, 58, 110, 111, 100, 101, 115, 54]
  const TOKEN_HEAD: seq<Octet> := [53, 58, 116, 111, 107, 101, 110, 56, 58]
  const TID_HEAD: seq<Octet> := [101, 49, 58, 116]
  const BODY_HEAD: seq<Octet> := [100, 50, 58, 105, 100, 50, 48, 58]
  const TAIL: seq<Octet> := [49, 58, 121, 49, 58, 114, 101]

  /** The number of nodes of a family. */
  method CountFamily(nodes: seq<Node>, ipv6: bool) returns (n: nat)
    ensures n == |OfFamily(nodes, Some(ipv6))|
  {
    n := 0;
    for i := 0 to |nodes|
      invariant n + |OfFamily(nodes[i..], Some(ipv6))| == |OfFamily(nodes, Some(ipv6))|
    {
      assert nodes[i..][1..] == nodes[i + 1..];
      if nodes[i].addr.V6? == ipv6 {
        n := n + 1;
      }
    }
  }

  /** Append the compact form of every node of the family. */
  method AppendNodes(buffer: seq<Octet>, nodes: seq<Node>, ipv6: bool) returns (r: seq<Octet>)
    ensures r == buffer + CompactAll(OfFamily(nodes, Some(ipv6)))
  {
    hide Compact;
    r := buffer;
    for i := 0 to |nodes|
      invariant r + CompactAll(OfFamily(nodes[i..], Some(ipv6))) == buffer + CompactAll(OfFamily(nodes, Some(ipv6)))
    {
      var rest := OfFamily(nodes[i + 1..], Some(ipv6));
      assert nodes[i..][1..] == nodes[i + 1..];
      if nodes[i].addr.V6? == ipv6 {
        assert ([nodes[i]] + rest)[1..] == rest;
        assert r + (Compact(nodes[i]) + CompactAll(rest)) == (r + Compact(nodes[i])) + CompactAll(rest);
        r := r + Compact(nodes[i]);
      } else {
        assert [] + rest == rest;
      }
    }
    assert nodes[|nodes|..] == [];
  }

  /** Write a reply: exactly the bencoded form of the reply's dictionary. Lengths fit the machine's word. */
  method EncodeResponse(tid: seq<Octet>, id: NodeId, token: seq<Octet>, nodes: seq<Node>, ipv6: bool)
    returns (buffer: seq<Octet>)
    requires |token| == 8 && |nodes| * 38 < 0x1_0000_0000_0000_0000 && |tid| < 0x1_0000_0000_0000_0000
    ensures buffer == Write(Reply(tid, id, token, nodes, ipv6))
  {
    hide OfFamily, CompactAll, Digits, Write;
    FamilyFits(nodes, ipv6);
    buffer := HEAD + ToOctets(id);
    var compact := CompactAll(OfFamily(nodes, Some(ipv6)));
    var count := CountFamily(nodes, ipv6);
    if count * Width(ipv6) > 0 {
      buffer := buffer + (if ipv6 then NODES6_HEAD else NODES_HEAD);
      buffer := PushUsize(buffer, count * Width(ipv6));
      buffer := buffer + [COLON];
      buffer := AppendNodes(buffer, nodes, ipv6);
    }
    ghost var mid := buffer;
    buffer := buffer + TOKEN_HEAD + token + TID_HEAD;
    buffer := PushUsize(buffer, |tid|);
    buffer := buffer + [COLON] + tid + TAIL;
    WrittenReply(tid, id, token, nodes, ipv6, mid, buffer);
  }

  lemma FamilyFits(nodes: seq<Node>, ipv6: bool)
    ensures |OfFamily(nodes, Some(ipv6))| <= |nodes|
    ensures |CompactAll(OfFamily(nodes, Some(ipv6)))| == |OfFamily(nodes, Some(ipv6))| * Width(ipv6)
  {
    FewerOfFamily(nodes, ipv6);
    FamilyOf(nodes, ipv6);
    CompactLength(OfFamily(nodes, Some(ipv6)), ipv6);
  }

  lemma {:induction false} FewerOfFamily(nodes: seq<Node>, ipv6: bool)
    ensures |OfFamily(nodes, Some(ipv6))| <= |nodes|
  {
    if nodes == [] {
    } else {
      FewerOfFamily(nodes[1..], ipv6);
    }
  }

  /** The nodes field as it is written, or nothing. */
  ghost function NodesField(compact: seq<Octet>, ipv6: bool): seq<Octet> {
    if compact == [] then [] else (if ipv6 then NODES6_HEAD else NODES_HEAD) + Digits(|compact|) + [COLON] + compact
  }

  lemma WrittenItems(a: Item, rest: seq<Item>)
    ensures WriteItems([a] + rest) == WriteStr(a.key) + Write(a.value) + WriteItems(rest)
  {
    assert ([a] + rest)[1..] == rest;
  }

  lemma KeysWritten()
    ensures WriteStr(KEY_ID) == [50, 58, 105, 100] && WriteStr(KEY_TOKEN) == [53, 58, 116, 111, 107, 101, 110]
    ensures WriteStr(KEY_NODES) == NODES_HEAD && WriteStr(KEY_NODES6) == NODES6_HEAD
    ensures WriteStr(KEY_R) == [49, 58, 114] && WriteStr(KEY_T) == [49, 58, 116] && WriteStr(KEY_Y) == [49, 58, 121]
    ensures Digits(20) == [50, 48] && Digits(8) == [56]
  {
    assert Digits(2) == [50];
  }

  lemma GatherBody<T>(open: seq<T>, key: seq<T>, len: seq<T>, ids: seq<T>, nodes: seq<T>, token: seq<T>, len8: seq<T>,
                      t: seq<T>, close: seq<T>)
    ensures open + (key + (len + ids) + (nodes + (token + (len8 + t)))) + close
         == (open + key + len) + ids + nodes + (token + len8) + t + close
  {
  }

  lemma WrittenBody(id: NodeId, token: seq<Octet>, compact: seq<Octet>, ipv6: bool)
    requires |token| == 8
    ensures Write(Body(id, token, compact, ipv6)) ==
      BODY_HEAD + ToOctets(id) + NodesField(compact, ipv6) + TOKEN_HEAD + token + [CLOSE]
  {
    var first, mid, last := Item(KEY_ID, Str(ToOctets(id))), Item(NodesKey(ipv6), Str(compact)),
        Item(KEY_TOKEN, Str(token));
    assert [last] + [] == [last] && [mid] + [last] == [mid, last];
    WrittenItems(last, []);
    WrittenItems(mid, [last]);
    WrittenItems(first, if compact == [] then [last] else [mid, last]);
    assert Body(id, token, compact, ipv6).items == [first] + (if compact == [] then [last] else [mid, last]);
    KeysWritten();
    var ids, len, len8 := ToOctets(id), Digits(20) + [COLON], Digits(8) + [COLON];
    var key, tk, nodes := WriteStr(KEY_ID), WriteStr(KEY_TOKEN), NodesField(compact, ipv6);
    assert WriteStr(ids) == len + ids && WriteStr(token) == len8 + token;
    WrittenNodes(compact, ipv6, [last]);
    assert WriteItems([last]) == tk + (len8 + token);
    assert [OPEN] + key + len == BODY_HEAD && tk + len8 == TOKEN_HEAD;
    hide WriteStr, Digits, ToOctets, NodesField, WriteItems;
    GatherBody([OPEN], key, len, ids, nodes, tk, len8, token, [CLOSE]);
  }

  lemma WrittenNodes(compact: seq<Octet>, ipv6: bool, rest: seq<Item>)
    ensures WriteItems(if compact == [] then rest else [Item(NodesKey(ipv6), Str(compact))] + rest)
         == NodesField(compact, ipv6) + WriteItems(rest)
  {
    KeysWritten();
    hide Digits;
    WrittenItems(Item(NodesKey(ipv6), Str(compact)), rest);
    hide WriteItems;
    if compact == [] {
      assert [] + WriteItems(rest) == WriteItems(rest);
    } else {
      assert WriteStr(NodesKey(ipv6)) + (Digits(|compact|) + [COLON] + compact) == NodesField(compact, ipv6);
    }
  }

  lemma GatherReply<T>(open: seq<T>, key: seq<T>, head: seq<T>, ids: seq<T>, rest: seq<T>, close: seq<T>, kt: seq<T>,
                       tid: seq<T>, tail: seq<T>, end: seq<T>)
    ensures open + (key + (head + ids + rest + close) + (kt + tid + tail)) + end
         == ((open + key + head) + ids + rest) + (close + kt) + tid + (tail + end)
  {
  }

  lemma Flatten<T>(mid: seq<T>, nodes: seq<T>, th: seq<T>, token: seq<T>, t: seq<T>, len: seq<T>, colon: seq<T>,
                   tid: seq<T>, tail: seq<T>)
    ensures mid + (nodes + th + token) + t + (len + colon + tid) + tail
         == (mid + nodes) + th + token + t + len + colon + tid + tail
  {
  }

  lemma ReplyItems(tid: seq<Octet>, body: Value)
    ensures Write(Dict([Item(KEY_R, body), Item(KEY_T, Str(tid)), Item(KEY_Y, Str(KEY_R))])) ==
      [OPEN] + (WriteStr(KEY_R) + Write(body) + (WriteStr(KEY_T) + WriteStr(tid) +
      (WriteStr(KEY_Y) + WriteStr(KEY_R)))) + [CLOSE]
  {
    var a, b, c := Item(KEY_R, body), Item(KEY_T, Str(tid)), Item(KEY_Y, Str(KEY_R));
    assert [c] + [] == [c] && [b] + [c] == [b, c] && [a] + [b, c] == [a, b, c];
    hide WriteStr;
    WrittenItems(c, []);
    WrittenItems(b, [c]);
    WrittenItems(a, [b, c]);
    var y := WriteStr(KEY_Y) + WriteStr(KEY_R);
    assert WriteItems([]) == [];
    assert y + [] == y;
    hide WriteItems;
  }

  lemma Assemble<T>(open: seq<T>, kr: seq<T>, head: seq<T>, ids: seq<T>, field: seq<T>, th: seq<T>, token: seq<T>,
                    close: seq<T>, kt: seq<T>, len: seq<T>, colon: seq<T>, tid: seq<T>, y: seq<T>)
    ensures open + (kr + (head + ids + field + th + token + close) + (kt + (len + colon + tid) + y)) + close
         == (open + kr + head) + ids + field + th + token + (close + kt) + len + colon + tid + (y + close)
  {
    var rest := field + th + token;
    assert head + ids + field + th + token + close == head + ids + rest + close;
    GatherReply(open, kr, head, ids, rest, close, kt, len + colon + tid, y, close);
    Flatten(open + kr + head + ids, field, th, token, close + kt, len, colon, tid, y + close);
  }

  lemma WrittenReply(tid: seq<Octet>, id: NodeId, token: seq<Octet>, nodes: seq<Node>, ipv6: bool, mid: seq<Octet>,
                     all: seq<Octet>)
    requires |token| == 8
    requires mid == HEAD + ToOctets(id) + NodesField(CompactAll(OfFamily(nodes, Some(ipv6))), ipv6)
    requires all == mid + TOKEN_HEAD + token + TID_HEAD + Digits(|tid|) + [COLON] + tid + TAIL
    ensures all == Write(Reply(tid, id, token, nodes, ipv6))
  {
    var compact := CompactAll(OfFamily(nodes, Some(ipv6)));
    WrittenBody(id, token, compact, ipv6);
    ReplyItems(tid, Body(id, token, compact, ipv6));
    Heads();
    WrittenTid(tid);
    hide OfFamily, CompactAll, Body, NodesField, ToOctets, WriteStr, Write, Digits;
    Assemble([OPEN], WriteStr(KEY_R), BODY_HEAD, ToOctets(id), NodesField(compact, ipv6), TOKEN_HEAD, token, [CLOSE],
             WriteStr(KEY_T), Digits(|tid|), [COLON], tid, WriteStr(KEY_Y) + WriteStr(KEY_R));
  }

  lemma WrittenTid(tid: seq<Octet>)
    ensures WriteStr(tid) == Digits(|tid|) + [COLON] + tid
  {
  }

  lemma Heads()
    ensures [OPEN] + WriteStr(KEY_R) + BODY_HEAD == HEAD
    ensures [CLOSE] + WriteStr(KEY_T) == TID_HEAD && WriteStr(KEY_Y) + WriteStr(KEY_R) + [CLOSE] == TAIL
  {
    KeysWritten();
  }
}
