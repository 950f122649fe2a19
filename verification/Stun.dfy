/** STUN address discovery: the walk over a Binding response's attributes (RFC 5389, sections 6 and 15). */
module Stun {
  import opened Bytes

  const COOKIE: seq<Byte> := [0x21, 0x12, 0xA4, 0x42]
  const MAPPED: nat := 0x0001
  const XOR_MAPPED: nat := 0x0020
  const IPV4: Byte := 0x01

  datatype Address = Address(ip: seq<Byte>, port: nat)

  function Pow2(n: nat): (p: nat)
    ensures p > 0
  {
    if n == 0 then 1 else 2 * Pow2(n - 1)
  }

  /** Exclusive or of the low `n` bits. */
  function XorBits(a: nat, b: nat, n: nat): (r: nat)
    ensures r < Pow2(n)
  {
    if n == 0 then 0 else 2 * XorBits(a / 2, b / 2, n - 1) + (a % 2 + b % 2) % 2
  }

  function Xor(a: Byte, b: Byte): Byte {
    assert Pow2(8) == 2 * Pow2(7) && Pow2(7) == 8 * Pow2(4) && Pow2(4) == 16;
    XorBits(a, b, 8) as Byte
  }

  lemma XorStep(a: nat, b: nat, n: nat)
    requires n > 0
    ensures var y := XorBits(a, b, n);
            y / 2 == XorBits(a / 2, b / 2, n - 1) && y % 2 == (a % 2 + b % 2) % 2
  {
    var x, bit := XorBits(a / 2, b / 2, n - 1), (a % 2 + b % 2) % 2;
    LowBit(x, bit);
  }

  lemma LowBit(x: nat, bit: nat)
    requires bit < 2
    ensures (2 * x + bit) / 2 == x && (2 * x + bit) % 2 == bit
  {
  }

  lemma BitTwice(a: nat, b: nat)
    ensures ((a % 2 + b % 2) % 2 + b % 2) % 2 == a % 2 && 2 * (a / 2) + a % 2 == a
  {
  }

  lemma {:induction false} XorBitsTwice(a: nat, b: nat, n: nat)
    requires a < Pow2(n)
    ensures XorBits(XorBits(a, b, n), b, n) == a
  {
    if n > 0 {
      XorBitsTwice(a / 2, b / 2, n - 1);
      XorStep(a, b, n);
      var y := XorBits(a, b, n);
      assert XorBits(y, b, n) == 2 * XorBits(y / 2, b / 2, n - 1) + (y % 2 + b % 2) % 2;
      BitTwice(a, b);
    }
  }

  function Bit(a: nat, k: nat): nat { if k == 0 then a % 2 else Bit(a / 2, k - 1) }

  /** Bit by bit, the result is 1 where exactly one operand is. */
  lemma {:induction false} XorBitwise(a: nat, b: nat, n: nat, k: nat)
    requires k < n
    ensures Bit(XorBits(a, b, n), k) == (if Bit(a, k) == Bit(b, k) then 0 else 1)
  {
    XorStep(a, b, n);
    if k > 0 { XorBitwise(a / 2, b / 2, n - 1, k - 1); }
  }

  lemma XorTwice(a: Byte, b: Byte)
    ensures Xor(Xor(a, b), b) == a
  {
    assert Pow2(8) == 2 * Pow2(7) && Pow2(7) == 8 * Pow2(4) && Pow2(4) == 16;
    hide XorBits;
    XorBitsTwice(a, b, 8);
  }

  function U16(r: seq<Byte>, i: nat): nat
    requires i + 2 <= |r|
  {
    r[i] as int * 256 + r[i + 1] as int
  }

  /** Byte `i` of the value, unmasked if `x`. */
  function Unmask(r: seq<Byte>, i: nat, x: bool, k: nat): Byte
    requires i < |r| && k < 4
  {
    if x then Xor(r[i], COOKIE[k]) else r[i]
  }

  /** The address in the attribute value that starts at `v`. */
  function AddressAt(r: seq<Byte>, v: nat, x: bool): Address
    requires v + 8 <= |r|
  {
    Address([Unmask(r, v + 4, x, 0), Unmask(r, v + 5, x, 1), Unmask(r, v + 6, x, 2), Unmask(r, v + 7, x, 3)],
            Unmask(r, v + 2, x, 0) as int * 256 + Unmask(r, v + 3, x, 1) as int)
  }

  /** The next multiple of four. */
  function Padded(n: nat): (r: nat)
    ensures r % 4 == 0 && n <= r < n + 4
  {
    (n + 3) / 4 * 4
  }

  predicate Wanted(r: seq<Byte>, typ: nat, v: nat, len: nat)
    requires v + len <= |r|
  {
    (typ == XOR_MAPPED || typ == MAPPED) && len >= 8 && r[v + 1] == IPV4
  }

  function Walk(r: seq<Byte>, off: nat, end: nat): Option<Address>
    requires end <= |r|
    decreases if off <= end then end - off else 0
  {
    if off + 4 > end then None
    else
      var typ, len, v := U16(r, off), U16(r, off + 2), off + 4;
      if v + len > |r| then None
      else if Wanted(r, typ, v, len) then Some(AddressAt(r, v, typ == XOR_MAPPED))
      else Walk(r, v + Padded(len), end)
  }

  predicate IsResponse(r: seq<Byte>, txid: seq<Byte>) {
    |r| >= 20 && r[0] == 1 && r[1] == 1 && r[4..8] == COOKIE && r[8..20] == txid
  }

  function Parse(r: seq<Byte>, txid: seq<Byte>): Option<Address> {
    if IsResponse(r, txid) then Walk(r, 20, Min(20 + U16(r, 2), |r|)) else None
  }

  method ParseResponse(r: seq<Byte>, txid: seq<Byte>) returns (found: Option<Address>)
    ensures found == Parse(r, txid)
  {
    if |r| < 20 || r[0] != 1 || r[1] != 1 { return None; }
    if r[4..8] != COOKIE || r[8..20] != txid { return None; }
    var len := U16(r, 2);
    var end := if 20 + len <= |r| then 20 + len else |r|;
    var off := 20;
    while off + 4 <= end
      invariant off >= 20 && Walk(r, off, end) == Parse(r, txid)
      decreases end - off
    {
      var typ, alen, v := U16(r, off), U16(r, off + 2), off + 4;
      if v + alen > |r| { break; }
      if (typ == XOR_MAPPED || typ == MAPPED) && alen >= 8 && r[v + 1] == IPV4 {
        return Some(AddressAt(r, v, typ == XOR_MAPPED));
      }
      off := v + (alen + 3) / 4 * 4;
    }
    return None;
  }

  // ----- Messages built of attributes -----

  /** An attribute as section 15 of RFC 5389 lays it out: type, length of the value, value, padding. */
  datatype Attr = Attr(typ: nat, value: seq<Byte>, pad: seq<Byte>)

  predicate WellFormed(a: Attr) {
    a.typ < 0x1_0000 && |a.value| < 0x1_0000 && |a.value| + |a.pad| == Padded(|a.value|)
  }

  function BE16(v: nat): seq<Byte>
    requires v < 0x1_0000
  {
    [v / 256, v % 256]
  }

  function Encode(a: Attr): seq<Byte>
    requires WellFormed(a)
  {
    BE16(a.typ) + BE16(|a.value|) + a.value + a.pad
  }

  function EncodeAll(attrs: seq<Attr>): seq<Byte>
    requires forall a | a in attrs :: WellFormed(a)
  {
    if attrs == [] then [] else Encode(attrs[0]) + EncodeAll(attrs[1..])
  }

  /** Byte by byte exclusive or with the magic cookie, from its start (section 15.2 of RFC 5389). */
  function Masked(bytes: seq<Byte>): (r: seq<Byte>)
    requires |bytes| <= |COOKIE|
    ensures |r| == |bytes|
  {
    seq(|bytes|, i requires 0 <= i < |bytes| => Xor(bytes[i], COOKIE[i]))
  }

  /**
   The mapped address an attribute carries, if it carries an IPv4 one: a reserved byte, the family, the port
   and the address, as they are in the older form and masked in the other (sections 15.1 and 15.2).
   */
  function Mapped(a: Attr): Option<Address> {
    if |a.value| < 8 || a.value[1] != IPV4 then None
    else if a.typ == MAPPED then Some(Address(a.value[4..8], U16(a.value, 2)))
    else if a.typ == XOR_MAPPED then Some(Address(Masked(a.value[4..8]), U16(Masked(a.value[2..4]), 0)))
    else None
  }

  function FirstMapped(attrs: seq<Attr>): Option<Address> {
    if attrs == [] then None
    else if Mapped(attrs[0]).Some? then Mapped(attrs[0])
    else FirstMapped(attrs[1..])
  }

  function Message(txid: seq<Byte>, attrs: seq<Attr>): seq<Byte>
    requires forall a | a in attrs :: WellFormed(a)
    requires |EncodeAll(attrs)| < 0x1_0000
  {
    [1, 1] + BE16(|EncodeAll(attrs)|) + COOKIE + txid + EncodeAll(attrs)
  }

  /** The message holds `bytes` at `off`. */
  predicate HoldsAt(r: seq<Byte>, off: nat, bytes: seq<Byte>) {
    off + |bytes| <= |r| && r[off..off + |bytes|] == bytes
  }

  /** What the walk reads at the head of an encoded attribute. */
  lemma HeadAttr(r: seq<Byte>, off: nat, a: Attr)
    requires WellFormed(a) && HoldsAt(r, off, Encode(a))
    ensures U16(r, off) == a.typ && U16(r, off + 2) == |a.value| && |Encode(a)| == 4 + Padded(|a.value|)
    ensures r[off + 4..off + 4 + |a.value|] == a.value
    ensures Wanted(r, a.typ, off + 4, |a.value|) <==> Mapped(a).Some?
    ensures Mapped(a).Some? ==> AddressAt(r, off + 4, a.typ == XOR_MAPPED) == Mapped(a).value
  {
    var e := Encode(a);
    assert r[off] == r[off..off + |e|][0] && r[off + 1] == r[off..off + |e|][1];
    assert r[off + 2] == r[off..off + |e|][2] && r[off + 3] == r[off..off + |e|][3];
    assert e[4..4 + |a.value|] == a.value;
    SliceOfSlice(r, off, off + |e|, 4, 4 + |a.value|);
    hide Xor, Encode;
    assert forall k | 0 <= k < |a.value| :: r[off + 4 + k] == r[off + 4..off + 4 + |a.value|][k] == a.value[k];
    if Mapped(a).Some? { ValueAddress(r, off + 4, a); }
  }

  /** The parser's reading of the value is the address the attribute carries. */
  lemma ValueAddress(r: seq<Byte>, v: nat, a: Attr)
    requires Mapped(a).Some? && v + |a.value| <= |r|
    requires forall k | 0 <= k < |a.value| :: r[v + k] == a.value[k]
    ensures AddressAt(r, v, a.typ == XOR_MAPPED) == Mapped(a).value
  {
    hide Xor;
    var bytes := a.value[4..8];
    assert forall k | 0 <= k < 4 :: bytes[k] == r[v + 4 + k];
    assert bytes == [bytes[0], bytes[1], bytes[2], bytes[3]];
    var masked := Masked(bytes);
    assert masked == [masked[0], masked[1], masked[2], masked[3]];
  }

  lemma HoldsParts(r: seq<Byte>, off: nat, head: seq<Byte>, rest: seq<Byte>)
    requires HoldsAt(r, off, head + rest)
    ensures HoldsAt(r, off, head) && HoldsAt(r, off + |head|, rest)
  {
    var all := head + rest;
    SliceOfSlice(r, off, off + |all|, 0, |head|);
    SliceOfSlice(r, off, off + |all|, |head|, |all|);
    assert all[0..|head|] == head && all[|head|..|all|] == rest;
  }

  /** One turn of the walk over an encoded attribute. */
  lemma WalkStep(r: seq<Byte>, off: nat, end: nat, a: Attr)
    requires WellFormed(a) && HoldsAt(r, off, Encode(a)) && off + |Encode(a)| <= end <= |r|
    ensures Walk(r, off, end) == if Mapped(a).Some? then Mapped(a) else Walk(r, off + |Encode(a)|, end)
  {
    HeadAttr(r, off, a);
    hide Encode, AddressAt, Wanted, Mapped, U16;
  }

  lemma AttrsUnfold(attrs: seq<Attr>)
    requires forall a | a in attrs :: WellFormed(a)
    ensures attrs == [] ==> EncodeAll(attrs) == [] && FirstMapped(attrs) == None
    ensures attrs != [] ==>
              && WellFormed(attrs[0]) && (forall a | a in attrs[1..] :: WellFormed(a))
              && EncodeAll(attrs) == Encode(attrs[0]) + EncodeAll(attrs[1..])
              && FirstMapped(attrs) == if Mapped(attrs[0]).Some? then Mapped(attrs[0]) else FirstMapped(attrs[1..])
  {
  }

  lemma WalkEnd(r: seq<Byte>, end: nat)
    requires end <= |r|
    ensures Walk(r, end, end) == None
  {
  }

  lemma {:induction false} WalkFindsFirst(r: seq<Byte>, off: nat, attrs: seq<Attr>)
    requires forall a | a in attrs :: WellFormed(a)
    requires HoldsAt(r, off, EncodeAll(attrs)) && off + |EncodeAll(attrs)| <= |r|
    ensures Walk(r, off, off + |EncodeAll(attrs)|) == FirstMapped(attrs)
    decreases |attrs|
  {
    hide *;
    AttrsUnfold(attrs);
    if attrs == [] {
      WalkEnd(r, off);
    } else {
      var head, rest := Encode(attrs[0]), EncodeAll(attrs[1..]);
      HoldsParts(r, off, head, rest);
      WalkStep(r, off, off + |head| + |rest|, attrs[0]);
      WalkFindsFirst(r, off + |head|, attrs[1..]);
    }
  }

  /**
   For any list of well-formed attributes, and anything after the message, the parser returns the
   first IPv4 mapped address, unmasking only the XOR form.
   */
  lemma ParseFindsFirst(txid: seq<Byte>, attrs: seq<Attr>, extra: seq<Byte>)
    requires |txid| == 12 && forall a | a in attrs :: WellFormed(a)
    requires |EncodeAll(attrs)| < 0x1_0000
    ensures Parse(Message(txid, attrs) + extra, txid) == FirstMapped(attrs)
  {
    hide EncodeAll, FirstMapped, Walk;
    var body := EncodeAll(attrs);
    var r := Message(txid, attrs) + extra;
    assert r[4..8] == COOKIE && r[8..20] == txid && r[20..20 + |body|] == body;
    assert U16(r, 2) == |body| && HoldsAt(r, 20, body);
    WalkFindsFirst(r, 20, attrs);
  }

  /** The single XOR-MAPPED-ADDRESS the responder encodes. */
  function AddressAttr(a: Address): Attr
    requires |a.ip| == 4 && a.port < 0x1_0000
  {
    Attr(XOR_MAPPED,
         [0, IPV4, Xor(a.port / 256, COOKIE[0]), Xor(a.port % 256, COOKIE[1]),
          Xor(a.ip[0], COOKIE[0]), Xor(a.ip[1], COOKIE[1]), Xor(a.ip[2], COOKIE[2]), Xor(a.ip[3], COOKIE[3])],
         [])
  }

  function MakeResponse(txid: seq<Byte>, a: Address): seq<Byte>
    requires |a.ip| == 4 && a.port < 0x1_0000
  {
    [1, 1] + BE16(12) + COOKIE + txid + Encode(AddressAttr(a))
  }

  lemma OneAttr(txid: seq<Byte>, attr: Attr)
    requires |txid| == 12 && WellFormed(attr) && |Encode(attr)| < 0x1_0000
    ensures EncodeAll([attr]) == Encode(attr)
    ensures Parse(Message(txid, [attr]), txid) == Mapped(attr)
  {
    hide Mapped, Encode, Parse;
    assert [attr][1..] == [];
    assert EncodeAll([attr]) == Encode(attr) + [];
    assert Message(txid, [attr]) + [] == Message(txid, [attr]);
    ParseFindsFirst(txid, [attr], []);
  }

  /** Encoding an address and parsing the response gives it back. */
  lemma ResponseRoundTrip(txid: seq<Byte>, a: Address)
    requires |txid| == 12 && |a.ip| == 4 && a.port < 0x1_0000
    ensures Parse(MakeResponse(txid, a), txid) == Some(a)
  {
    MappedBack(a);
    AttrLength(a);
    OneAttr(txid, AddressAttr(a));
    hide AddressAttr, Mapped, Encode, Parse;
    assert MakeResponse(txid, a) == Message(txid, [AddressAttr(a)]);
  }

  /** The older form of the attribute, which is not masked. */
  function LegacyAttr(a: Address): Attr
    requires |a.ip| == 4 && a.port < 0x1_0000
  {
    Attr(MAPPED, [0, IPV4] + BE16(a.port) + a.ip, [])
  }

  /** A server that answers with the older form alone is understood: its address is taken as it is. */
  lemma LegacyRoundTrip(txid: seq<Byte>, a: Address)
    requires |txid| == 12 && |a.ip| == 4 && a.port < 0x1_0000
    ensures Parse(Message(txid, [LegacyAttr(a)]), txid) == Some(a)
  {
    var attr := LegacyAttr(a);
    assert |Encode(attr)| == 12 && |EncodeAll([attr])| == 12 by { OneAttrLength(attr); }
    OneAttr(txid, attr);
    PortBytes(a.port);
    assert attr.value[4..8] == a.ip;
  }

  lemma OneAttrLength(attr: Attr)
    requires WellFormed(attr) && |attr.value| == 8
    ensures |Encode(attr)| == 12 && |EncodeAll([attr])| == 12
  {
    assert [attr][1..] == [];
  }

  lemma AttrLength(a: Address)
    requires |a.ip| == 4 && a.port < 0x1_0000
    ensures |Encode(AddressAttr(a))| == 12
  {
  }

  lemma PortBytes(p: nat)
    requires p < 0x1_0000
    ensures p / 256 < 256 && p / 256 * 256 + p % 256 == p
  {
  }

  lemma MappedBack(a: Address)
    requires |a.ip| == 4 && a.port < 0x1_0000
    ensures Mapped(AddressAttr(a)) == Some(a)
  {
    PortBytes(a.port);
    var hi: Byte, lo: Byte := a.port / 256, a.port % 256;
    hide Xor;
    XorTwice(hi, COOKIE[0]);
    XorTwice(lo, COOKIE[1]);
    forall k | 0 <= k < 4
      ensures Xor(Xor(a.ip[k], COOKIE[k]), COOKIE[k]) == a.ip[k]
    {
      XorTwice(a.ip[k], COOKIE[k]);
    }
    var value := AddressAttr(a).value;
    assert Masked(value[4..8]) == a.ip;
    assert Masked(value[2..4]) == [hi, lo];
  }

  // ----- Nothing else is taken for an address -----

  /** At `off` lies an attribute whose value, inside the message, carries the address. */
  ghost predicate CarriedAt(r: seq<Byte>, off: nat, a: Address) {
    off + 12 <= |r| && off + 4 + U16(r, off + 2) <= |r|
    && Mapped(Attr(U16(r, off), r[off + 4..off + 4 + U16(r, off + 2)], [])) == Some(a)
  }

  lemma WantedCarried(r: seq<Byte>, off: nat)
    requires off + 4 <= |r| && off + 4 + U16(r, off + 2) <= |r|
    requires Wanted(r, U16(r, off), off + 4, U16(r, off + 2))
    ensures CarriedAt(r, off, AddressAt(r, off + 4, U16(r, off) == XOR_MAPPED))
  {
    hide Xor;
    ValueAddress(r, off + 4, Attr(U16(r, off), r[off + 4..off + 4 + U16(r, off + 2)], []));
  }

  lemma {:induction false} WalkSound(r: seq<Byte>, off: nat, end: nat)
    requires end <= |r|
    ensures var found := Walk(r, off, end);
            found.Some? ==> exists o :: off <= o && o + 4 <= end && CarriedAt(r, o, found.value)
    decreases if off <= end then end - off else 0
  {
    hide CarriedAt, AddressAt;
    if off + 4 <= end {
      var typ, len, v := U16(r, off), U16(r, off + 2), off + 4;
      if v + len <= |r| {
        if Wanted(r, typ, v, len) {
          WantedCarried(r, off);
        } else {
          WalkSound(r, v + Padded(len), end);
        }
      }
    }
  }

  /**
   An address is only ever taken from a success response to this very request, and out of an attribute that
   carries it; so whatever else arrives, another transaction's response included, is ignored.
   */
  lemma ParseSound(r: seq<Byte>, txid: seq<Byte>)
    requires Parse(r, txid).Some?
    ensures |r| >= 20 && r[..2] == [1, 1] && r[4..8] == COOKIE && r[8..20] == txid
    ensures exists o :: 20 <= o && CarriedAt(r, o, Parse(r, txid).value)
  {
    WalkSound(r, 20, Min(20 + U16(r, 2), |r|));
  }
}
