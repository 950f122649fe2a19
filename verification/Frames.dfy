/** `FrameStream`: frames with a four-byte length in front, cut back out of a byte stream. */
module Frames {
  import opened Bytes
  import opened Wire

  type Frame = seq<Byte>

  /** The largest frame the length field can announce, plus one. */
  const FRAME_LIMIT: nat := 0x1_0000_0000

  predicate Fits32(f: Frame) { |f| < FRAME_LIMIT }

  predicate AllFit(fs: seq<Frame>) { forall i | 0 <= i < |fs| :: Fits32(fs[i]) }

  function Wrap(f: Frame): seq<Byte> { BigEndian(|f|, 4) + f }

  /** The length in front is the frame's alone, most significant byte first. */
  lemma WrapLayout(f: Frame, k: nat)
    requires k < 4
    ensures |Wrap(f)| == 4 + |f| && Wrap(f)[k] == |f| / Pow256(3 - k) % 256 && Wrap(f)[4..] == f
  {
    MostSignificantFirst(|f|, 4, k);
    hide BigEndian, Pow256;
  }

  function WrapAll(fs: seq<Frame>): seq<Byte> {
    if fs == [] then [] else Wrap(fs[0]) + WrapAll(fs[1..])
  }

  datatype Parsed = Parsed(frames: seq<Frame>, rest: seq<Byte>)

  predicate HasFrame(buf: seq<Byte>) { |buf| >= 4 && |buf| >= 4 + FromBigEndian(buf[..4]) }

  function FrameLen(buf: seq<Byte>): nat
    requires HasFrame(buf)
  {
    FromBigEndian(buf[..4])
  }

  function Parse(buf: seq<Byte>): Parsed {
    if !HasFrame(buf) then Parsed([], buf)
    else
      var n := FrameLen(buf);
      var p := Parse(buf[4 + n..]);
      Parsed([buf[4..4 + n]] + p.frames, p.rest)
  }

  lemma ParseCons(out: seq<Frame>, buf: seq<Byte>)
    requires HasFrame(buf)
    ensures var n := FrameLen(buf);
            var p, q := Parse(buf), Parse(buf[4 + n..]);
            p.rest == q.rest && out + p.frames == (out + [buf[4..4 + n]]) + q.frames
  {
    hide FromBigEndian;
    var n := FrameLen(buf);
    var q := Parse(buf[4 + n..]);
    assert out + ([buf[4..4 + n]] + q.frames) == (out + [buf[4..4 + n]]) + q.frames;
  }

  lemma ParseDone(buf: seq<Byte>)
    requires !HasFrame(buf)
    ensures Parse(buf) == Parsed([], buf)
  {
  }

  class FrameStream {
    var buf: seq<Byte>

    constructor ()
      ensures buf == []
    {
      buf := [];
    }

    method Feed(data: seq<Byte>) returns (out: seq<Frame>)
      modifies this
      ensures Parsed(out, buf) == Parse(old(buf) + data)
    {
      hide Parse, FromBigEndian;
      buf := buf + data;
      ghost var whole := Parse(buf);
      out := [];
      assert out + whole.frames == whole.frames;
      while |buf| >= 4
        invariant out + Parse(buf).frames == whole.frames && Parse(buf).rest == whole.rest
        decreases |buf|
      {
        var n := FromBigEndian(buf[..4]);
        if |buf| < 4 + n { break; }
        ParseCons(out, buf);
        out := out + [buf[4..4 + n]];
        buf := buf[4 + n..];
      }
      ParseDone(buf);
      assert out + [] == out;
    }
  }

  // ----- Chunking does not matter -----

  lemma HeadFrameStays(a: seq<Byte>, b: seq<Byte>)
    requires HasFrame(a)
    ensures HasFrame(a + b) && FrameLen(a + b) == FrameLen(a)
    ensures var n := FrameLen(a);
            (a + b)[4..4 + n] == a[4..4 + n] && (a + b)[4 + n..] == a[4 + n..] + b
  {
    hide FromBigEndian;
    assert (a + b)[..4] == a[..4];
  }

  lemma ParseStep(buf: seq<Byte>)
    requires HasFrame(buf)
    ensures var n := FrameLen(buf);
            Parse(buf) == Parsed([buf[4..4 + n]] + Parse(buf[4 + n..]).frames, Parse(buf[4 + n..]).rest)
  {
    hide FromBigEndian;
  }

  lemma {:induction false} ParseInParts(a: seq<Byte>, b: seq<Byte>)
    ensures var p, q := Parse(a), Parse(Parse(a).rest + b);
            Parse(a + b) == Parsed(p.frames + q.frames, q.rest)
    decreases |a|
  {
    hide Parse, FromBigEndian;
    if HasFrame(a) {
      var n := FrameLen(a);
      HeadFrameStays(a, b);
      ParseStep(a);
      ParseStep(a + b);
      ParseInParts(a[4 + n..], b);
      hide HasFrame, FrameLen;
      var p := Parse(a[4 + n..]);
      var q := Parse(p.rest + b);
      assert [a[4..4 + n]] + (p.frames + q.frames) == ([a[4..4 + n]] + p.frames) + q.frames;
    } else {
      ParseDone(a);
    }
  }

  /** The frames emitted, and the bytes kept, by feeding the chunks one after another. */
  function FeedAll(buf: seq<Byte>, chunks: seq<seq<Byte>>): Parsed
    decreases |chunks|
  {
    if chunks == [] then Parsed([], buf)
    else
      var p := Parse(buf + chunks[0]);
      var q := FeedAll(p.rest, chunks[1..]);
      Parsed(p.frames + q.frames, q.rest)
  }

  lemma {:induction false} FeedAllIsParse(buf: seq<Byte>, chunks: seq<seq<Byte>>)
    requires Parse(buf) == Parsed([], buf)
    ensures FeedAll(buf, chunks) == Parse(buf + Concat(chunks))
    decreases chunks
  {
    hide Parse;
    if chunks == [] {
      assert buf + Concat(chunks) == buf;
    } else {
      var p := Parse(buf + chunks[0]);
      ParseRest(buf + chunks[0]);
      FeedAllIsParse(p.rest, chunks[1..]);
      ParseInParts(buf + chunks[0], Concat(chunks[1..]));
      assert buf + Concat(chunks) == (buf + chunks[0]) + Concat(chunks[1..]);
    }
  }

  lemma {:induction false} ParseRest(buf: seq<Byte>)
    ensures Parse(Parse(buf).rest) == Parsed([], Parse(buf).rest)
    decreases |buf|
  {
    if HasFrame(buf) { ParseRest(buf[4 + FrameLen(buf)..]); }
  }

  // ----- The frames of a prefix of the wrapped stream -----

  /** How many of the frames lie wholly within the first `n` bytes of the wrapped stream. */
  function WhollyWithin(fs: seq<Frame>, n: nat): (k: nat)
    ensures k <= |fs|
  {
    if fs == [] || n < 4 + |fs[0]| then 0 else 1 + WhollyWithin(fs[1..], n - 4 - |fs[0]|)
  }

  lemma FieldHolds()
    ensures Pow256(4) == FRAME_LIMIT
  {
    assert Pow256(2) == 65536;
    assert Pow256(3) == 256 * Pow256(2);
  }

  lemma ThreeParts(head: seq<Byte>, f: seq<Byte>, tail: seq<Byte>)
    ensures var b, n := head + f + tail, |head|;
            |b| == n + |f| + |tail| && b[..n] == head && b[n..n + |f|] == f && b[n + |f|..] == tail
  {
  }

  lemma WrapHead(f: Frame, tail: seq<Byte>)
    requires Fits32(f)
    ensures var b := Wrap(f) + tail;
            HasFrame(b) && FrameLen(b) == |f| && b[4..4 + |f|] == f && b[4 + |f|..] == tail
  {
    hide BigEndian, FromBigEndian, Pow256;
    BigEndianRoundTrip(|f|, 4);
    FieldHolds();
    ThreeParts(BigEndian(|f|, 4), f, tail);
  }

  lemma PrefixTooShort(f: Frame, b: seq<Byte>)
    requires Fits32(f) && b <= Wrap(f) && |b| < 4 + |f|
    ensures !HasFrame(b)
  {
    if |b| >= 4 {
      WrapHead(f, []);
      assert Wrap(f) + [] == Wrap(f);
      assert b[..4] == Wrap(f)[..4];
    }
  }

  /** A prefix that stops inside the first frame: nothing is emitted and all of it is kept. */
  lemma ParseShort(fs: seq<Frame>, n: nat)
    requires AllFit(fs) && fs != [] && n <= |WrapAll(fs)| && n < |Wrap(fs[0])|
    ensures WhollyWithin(fs, n) == 0 && fs[..0] == [] && WrapAll(fs[..0]) == []
    ensures WrapAll(fs)[0..n] == WrapAll(fs)[..n] && Parse(WrapAll(fs)[..n]) == Parsed([], WrapAll(fs)[..n])
  {
    hide FromBigEndian, BigEndian, HasFrame;
    var b := WrapAll(fs)[..n];
    assert b <= Wrap(fs[0]);
    PrefixTooShort(fs[0], b);
  }

  /**
   After any prefix of a wrapped stream, the frames emitted are exactly those wholly inside it, and
   the buffer holds exactly the remainder.
   */
  lemma {:induction false} ParseOfPrefix(fs: seq<Frame>, n: nat)
    requires AllFit(fs) && n <= |WrapAll(fs)|
    ensures var k := WhollyWithin(fs, n);
            |WrapAll(fs[..k])| <= n
            && Parse(WrapAll(fs)[..n]) == Parsed(fs[..k], WrapAll(fs)[|WrapAll(fs[..k])|..n])
    decreases fs
  {
    assert !HasFrame([]);
    hide FromBigEndian, BigEndian, HasFrame;
    if fs != [] {
      var head := Wrap(fs[0]);
      if n < |head| {
        ParseShort(fs, n);
      } else {
        ParseOfPrefix(fs[1..], n - |head|);
        ParseBeyondHead(fs, n);
      }
    }
  }

  lemma ParseBeyondHead(fs: seq<Frame>, n: nat)
    requires AllFit(fs) && fs != [] && |Wrap(fs[0])| <= n <= |WrapAll(fs)|
    ensures var m := n - |Wrap(fs[0])|;
            var k, k' := WhollyWithin(fs, n), WhollyWithin(fs[1..], m);
            var p := Parse(WrapAll(fs[1..])[..m]);
            && k == k' + 1
            && Parse(WrapAll(fs)[..n]) == Parsed([fs[0]] + p.frames, p.rest)
            && fs[..k] == [fs[0]] + fs[1..][..k']
            && WrapAll(fs[..k]) == Wrap(fs[0]) + WrapAll(fs[1..][..k'])
            && (|WrapAll(fs[1..][..k'])| <= m ==>
                  WrapAll(fs)[|WrapAll(fs[..k])|..n] == WrapAll(fs[1..])[|WrapAll(fs[1..][..k'])|..m])
  {
    hide FromBigEndian, BigEndian, HasFrame;
    var head, tail := Wrap(fs[0]), WrapAll(fs[1..]);
    var m := n - |head|;
    assert WrapAll(fs)[..n] == head + tail[..m];
    WrapHead(fs[0], tail[..m]);
    var k := WhollyWithin(fs, n);
    assert fs[..k] == [fs[0]] + fs[1..][..k - 1];
    assert fs[..k][1..] == fs[1..][..k - 1];
  }
}
