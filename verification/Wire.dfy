/** Big-endian numbers and the byte layout of the `Arq` payload. */
module Wire {
  import opened Bytes
  import opened Arq

  function Pow256(n: nat): (p: nat)
    ensures p > 0
  {
    if n == 0 then 1 else 256 * Pow256(n - 1)
  }

  /** The low `n` bytes of `v`, most significant first. */
  function BigEndian(v: nat, n: nat): (r: seq<Byte>)
    ensures |r| == n
  {
    if n == 0 then [] else BigEndian(v / 256, n - 1) + [v % 256]
  }

  function FromBigEndian(b: seq<Byte>): nat {
    if b == [] then 0 else 256 * FromBigEndian(b[..|b| - 1]) + b[|b| - 1]
  }

  /** Writing and reading back keeps exactly the value modulo the field's range. */
  lemma {:induction false} BigEndianRoundTrip(v: nat, n: nat)
    ensures FromBigEndian(BigEndian(v, n)) == v % Pow256(n)
  {
    if n > 0 {
      BigEndianRoundTrip(v / 256, n - 1);
      var b := BigEndian(v, n);
      assert b[..n - 1] == BigEndian(v / 256, n - 1);
      ModSplit(v, Pow256(n - 1));
    }
  }

  /** Most significant first: byte `i` is digit `n - 1 - i` of the value in base 256. */
  lemma {:induction false} MostSignificantFirst(v: nat, n: nat, i: nat)
    requires i < n
    ensures BigEndian(v, n)[i] == v / Pow256(n - 1 - i) % 256
  {
    if i < n - 1 {
      MostSignificantFirst(v / 256, n - 1, i);
      DivTwice(v, Pow256(n - 2 - i));
    }
  }

  lemma DivTwice(v: nat, p: nat)
    requires p > 0
    ensures v / 256 / p == v / (256 * p)
  {
    var q, r := v / 256, v % 256;
    var a, m := q / p, q % p;
    assert v == 256 * (a * p + m) + r;
    assert 256 * (a * p + m) + r == a * (256 * p) + (256 * m + r);
    DivModUnique(v, 256 * p, a, 256 * m + r);
  }

  lemma ModSplit(v: nat, p: nat)
    requires p > 0
    ensures v % (256 * p) == 256 * (v / 256 % p) + v % 256
  {
    var q, r := v / 256, v % 256;
    var a, m := q / p, q % p;
    assert v == 256 * (a * p + m) + r;
    assert 256 * (a * p + m) + r == a * (256 * p) + (256 * m + r);
    assert 0 <= 256 * m + r < 256 * p;
    DivModUnique(v, 256 * p, a, 256 * m + r);
  }

  lemma MulMonotone(a: int, b: int, d: int)
    requires a <= b && d >= 0
    ensures a * d <= b * d && a * d == (a - 1) * d + d
  {
  }

  lemma DivModUnique(v: int, d: int, q: int, r: int)
    requires d > 0 && 0 <= r < d && v == q * d + r
    ensures v % d == r && v / d == q
  {
    var q', r' := v / d, v % d;
    assert v == q' * d + r';
    if q' > q { MulMonotone(q + 1, q', d); }
    if q' < q { MulMonotone(q' + 1, q, d); }
  }

  lemma {:induction false} FromBigEndianBound(b: seq<Byte>)
    ensures FromBigEndian(b) < Pow256(|b|)
  {
    if b != [] { FromBigEndianBound(b[..|b| - 1]); }
  }

  const F_DATA: Byte := 0x01

  function EncodeBody(body: Body): seq<Byte> {
    match body
    case Control(flag) => [flag]
    case PureAck(ack) => [0] + BigEndian(ack, 8)
    case Data(ack, off, data) => [F_DATA] + BigEndian(ack, 8) + BigEndian(off, 8) + data
  }

  /** The layout, byte by byte: a flag, the acknowledged position, and for data its own position and the bytes. */
  lemma BodyLayout(ack: nat, off: nat, data: seq<Byte>, k: nat)
    requires k < 8
    ensures var bare, e := EncodeBody(PureAck(ack)), EncodeBody(Data(ack, off, data));
            && |bare| == 9 && bare[0] == 0 && |e| == 17 + |data| && e[0] == 1
            && bare[1 + k] == e[1 + k] == ack / Pow256(7 - k) % 256
            && e[9 + k] == off / Pow256(7 - k) % 256 && e[17..] == data
  {
    MostSignificantFirst(ack, 8, k);
    MostSignificantFirst(off, 8, k);
    hide BigEndian, Pow256;
    var e := EncodeBody(Data(ack, off, data));
    assert e[1..9] == BigEndian(ack, 8) && e[9..17] == BigEndian(off, 8);
    assert e[1 + k] == e[1..9][k] && e[9 + k] == e[9..17][k];
  }

  /** What the receiver makes of an opened payload; `None` when it drops it. */
  function DecodeBody(b: seq<Byte>): Option<Body> {
    if |b| < 9 || b[0] >= 0x80 then None
    else if b[0] % 2 == 1 && |b| >= 17
    then Some(Data(FromBigEndian(b[1..9]), FromBigEndian(b[9..17]), b[17..]))
    else Some(PureAck(FromBigEndian(b[1..9])))
  }

  predicate Fits(body: Body) {
    match body
    case Control(_) => false
    case PureAck(ack) => ack < Pow256(8)
    case Data(ack, off, _) => ack < Pow256(8) && off < Pow256(8)
  }

  /**
   The layout carries a payload faithfully exactly while its stream positions fit 64 bits; a
   control payload is always dropped.
   */
  lemma BodyRoundTrip(body: Body)
    ensures DecodeBody(EncodeBody(body)) == Some(body) <==> Fits(body)
    ensures body.Control? ==> DecodeBody(EncodeBody(body)) == None
  {
    hide BigEndian, FromBigEndian, Pow256;
    match body
    case Control(_) =>
    case PureAck(ack) =>
      assert EncodeBody(body)[1..9] == BigEndian(ack, 8);
      FieldRoundTrip(ack);
    case Data(ack, off, data) =>
      var b := EncodeBody(body);
      assert b[1..9] == BigEndian(ack, 8) && b[9..17] == BigEndian(off, 8) && b[17..] == data;
      FieldRoundTrip(ack);
      FieldRoundTrip(off);
  }

  lemma {:induction false} Rewritten(b: seq<Byte>)
    ensures BigEndian(FromBigEndian(b), |b|) == b
  {
    if b != [] {
      var init := b[..|b| - 1];
      Rewritten(init);
      DivModUnique(FromBigEndian(b), 256, FromBigEndian(init), b[|b| - 1]);
    }
  }

  /**
   Conversely, what is read from any opened payload is what it spells: dropped if short or of a control
   kind, and otherwise, written again, it is the payload but for the flag byte and what follows a bare ack.
   */
  lemma DecodedIsSpelled(b: seq<Byte>)
    ensures DecodeBody(b).None? <==> |b| < 9 || b[0] >= 0x80
    ensures DecodeBody(b).Some? ==>
              var body := DecodeBody(b).value;
              var e := EncodeBody(body);
              if body.Data? then |e| == |b| && e[1..] == b[1..] && b[0] % 2 == 1
              else body.PureAck? && |e| == 9 <= |b| && e[1..] == b[1..9] && (b[0] % 2 == 0 || |b| < 17)
  {
    hide BigEndian, FromBigEndian;
    if DecodeBody(b).Some? {
      Rewritten(b[1..9]);
      var e := EncodeBody(DecodeBody(b).value);
      if DecodeBody(b).value.Data? {
        Rewritten(b[9..17]);
        assert b[1..] == b[1..9] + b[9..17] + b[17..];
        assert e[1..] == b[1..9] + b[9..17] + b[17..];
      } else {
        assert e[1..] == b[1..9];
      }
    }
  }

  /** The first position that does not fit: it is read back as 0. */
  lemma PositionWraps()
    ensures DecodeBody(EncodeBody(PureAck(Pow256(8)))) == Some(PureAck(0))
  {
    var ack := Pow256(8);
    BigEndianRoundTrip(ack, 8);
    hide BigEndian, FromBigEndian, Pow256;
    assert ack % ack == 0;
    assert EncodeBody(PureAck(ack))[1..9] == BigEndian(ack, 8);
  }

  lemma FieldRoundTrip(v: nat)
    ensures FromBigEndian(BigEndian(v, 8)) == v <==> v < Pow256(8)
  {
    BigEndianRoundTrip(v, 8);
    hide *;
    SmallMod(v, Pow256(8));
  }

  lemma SmallMod(v: nat, m: nat)
    requires m > 0
    ensures v % m == v <==> v < m
  {
  }
}
