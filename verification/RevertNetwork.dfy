/**
 Two backhauls, both up, over a lossy network, each writing frames in-band for the other to read in
 order; and the invariant that everything either does keeps. How the frames cross is not decided here.

 The network is everything either side wrote to its socket.
 */
module RevertNetwork {
  import opened Bytes
  import opened Text
  import opened Frames
  import Arq
  import Net = ArqNetwork
  import opened Backhaul

  datatype Side = A | B

  /** What happens at one side, apart from its terminal stream. */
  datatype Event =
    | Submit(side: Side, frame: Frame, now: int)
    | Datagram(side: Side, d: Arq.Datagram, now: int)
    | Timer(side: Side, now: int)
    | Down(side: Side)

  function Wired(s: State): set<Arq.Datagram> { set d | d in s.wire }

  function Network(x: State, y: State): set<Arq.Datagram> { Wired(x) + Wired(y) }

  /** One endpoint's half of an event; `y` is its peer. */
  function StepOne(codec: Codec, x: State, y: State, e: Event): State {
    match e
    case Submit(_, frame, now) => SendDown(codec, x, frame, now)
    case Datagram(_, d, now) =>
      if Net.Receivable(Network(x, y), d) then OnReadable(codec, x, d, now) else x
    case Timer(_, now) => Tick(codec, x, now)
    case Down(_) => BeginRevert(x)
  }

  function StepSub(sub: seq<Frame>, e: Event): seq<Frame> {
    if e.Submit? then sub + [e.frame] else sub
  }

  /** The router only carries frames that fit the length field and are not revert notices. */
  predicate Proper(e: Event) { e.Submit? ==> Fits32(e.frame) && !StartsWith(e.frame, REVERT_VERB) }

  // ----- One sender's books -----

  function WrapEach(fs: seq<Frame>): seq<seq<Byte>> {
    if fs == [] then [] else WrapEach(fs[..|fs| - 1]) + [Wrap(fs[|fs| - 1])]
  }

  /** Record `i` of the queue is frame `base + i`, and ends where that frame's chunk ends. */
  ghost predicate Ends(codec: Codec, chunks: seq<seq<Byte>>, txOff: nat, rs: seq<Record>, base: nat)
    decreases rs
  {
    rs == [] || (
      && rs[0].end == (if base < |chunks| then |Compressed(codec, chunks[..base + 1])| else txOff)
      && Ends(codec, chunks, txOff, rs[1..], base + 1))
  }

  /** The queue holds the submitted frames from number `txBase` on, with the offsets they end at. */
  ghost predicate Books(codec: Codec, s: State, sub: seq<Frame>) {
    && AllFit(sub)
    && |s.chunks| <= |sub| && s.chunks == WrapEach(sub[..|s.chunks|])
    && s.txOff == |Compressed(codec, s.chunks)|
    && (s.phase == Up ==> |s.chunks| == |sub|)
    && s.txBase <= |s.chunks|
    && (s.resent <==> s.phase == Failed)
    && (s.phase != Failed ==> FramesOf(s.sent) == sub[s.txBase..])
    && Ends(codec, s.chunks, s.txOff, s.sent, s.txBase)
  }

  /** The receiver has counted exactly the frames inflated from what it fed its decompressor. */
  ghost predicate Intake(codec: Codec, r: State) {
    r.arq.inbox == [] && Parse(codec.inflate(r.fed)).rest == r.buf
    && |Parse(codec.inflate(r.fed)).frames| == r.rxFrames
  }

  /** What crossed in-band from `s` to its peer, after the notice. */
  ghost predicate Channel(s: State, sub: seq<Frame>, r: State, read: nat) {
    && read <= |s.inband|
    && (s.phase != Up <==> |s.inband| >= 1)
    && (s.inband != [] ==> s.inband[0] == UpRx(s.rxFrames))
    && (s.phase == Reverting ==> |s.inband| == 1)
    && r.rxFrames <= |sub|
    && (s.phase == Failed ==> s.inband[1..] == sub[r.rxFrames..])
    && (r.phase == Failed <==> read >= 1)
    && r.got == sub[..r.rxFrames] + (if read >= 1 then s.inband[1..read] else [])
    && (forall f | f in sub :: !StartsWith(f, REVERT_VERB))
  }

  ghost predicate Link(codec: Codec, s: State, sub: seq<Frame>, r: State, read: nat) {
    && Books(codec, s, sub) && Intake(codec, r) && Channel(s, sub, r, read)
    && s.txBase <= r.rxFrames <= |s.chunks|
  }

  function ArqEnd(codec: Codec, s: State): Net.End { Net.End(s.arq, Compressed(codec, s.chunks), s.fed) }

  ghost predicate Pair(codec: Codec, x: State, y: State, cx: Net.Cuts, cy: Net.Cuts) {
    Net.Pair(ArqEnd(codec, x), ArqEnd(codec, y), Network(x, y), cx, cy)
  }

  /** Two backhauls and their books; `readX` of the frames `y` put in-band have arrived at `x`. */
  ghost predicate Joint(codec: Codec, x: State, subX: seq<Frame>, readX: nat, y: State, subY: seq<Frame>, readY: nat) {
    && Link(codec, x, subX, y, readY)
    && Link(codec, y, subY, x, readX)
    && exists cx: Net.Cuts, cy: Net.Cuts :: Pair(codec, x, y, cx, cy)
  }

  // ----- The byte stream and its frames -----

  lemma {:induction false} WrapAllSnoc(fs: seq<Frame>, f: Frame)
    ensures WrapAll(fs + [f]) == WrapAll(fs) + Wrap(f)
  {
    hide Wrap;
    if fs == [] {
      assert [f][1..] == [];
    } else {
      WrapAllSnoc(fs[1..], f);
      assert (fs + [f])[1..] == fs[1..] + [f];
    }
  }

  lemma {:induction false} WrapEachAt(fs: seq<Frame>, j: nat)
    requires j <= |fs|
    ensures |WrapEach(fs)| == |fs| && WrapEach(fs)[..j] == WrapEach(fs[..j])
  {
    hide Wrap;
    if j < |fs| {
      WrapEachAt(fs[..|fs| - 1], j);
      assert fs[..|fs| - 1][..j] == fs[..j];
    } else if fs != [] {
      WrapEachAt(fs[..|fs| - 1], |fs| - 1);
      assert fs[..j] == fs;
    }
  }

  lemma {:induction false} ConcatWrapEach(fs: seq<Frame>)
    ensures Concat(WrapEach(fs)) == WrapAll(fs)
  {
    hide Wrap;
    if fs != [] {
      var init, f := fs[..|fs| - 1], fs[|fs| - 1];
      ConcatWrapEach(init);
      ConcatSnoc(WrapEach(init), Wrap(f));
      WrapAllSnoc(init, f);
      assert init + [f] == fs;
    }
  }

  lemma {:induction false} CompressedPrefix(codec: Codec, chunks: seq<seq<Byte>>, j: nat)
    requires j <= |chunks|
    ensures Compressed(codec, chunks[..j]) <= Compressed(codec, chunks)
  {
    if j < |chunks| {
      CompressedPrefix(codec, chunks[..|chunks| - 1], j);
      assert chunks[..|chunks| - 1][..j] == chunks[..j];
    } else {
      assert chunks[..j] == chunks;
    }
  }

  lemma {:induction false} WhollyAtLeast(fs: seq<Frame>, n: nat, j: nat)
    requires j <= |fs| && |WrapAll(fs[..j])| <= n
    ensures WhollyWithin(fs, n) >= j
    decreases j
  {
    if j > 0 {
      assert fs[..j][1..] == fs[1..][..j - 1];
      WhollyAtLeast(fs[1..], n - 4 - |fs[0]|, j - 1);
    }
  }

  lemma InflateMonotone(codec: Codec, p: seq<Byte>, q: seq<Byte>)
    requires StreamingCodec(codec) && p <= q
    ensures codec.inflate(p) <= codec.inflate(q)
  {
  }

  lemma InflateWhole(codec: Codec, fs: seq<Frame>)
    requires StreamingCodec(codec)
    ensures codec.inflate(Compressed(codec, WrapEach(fs))) == WrapAll(fs)
  {
    ConcatWrapEach(fs);
  }

  /** Inflating the first `r` compressed bytes gives a prefix of the wrapped frames. */
  lemma PlainIsPrefix(codec: Codec, fs: seq<Frame>, r: nat) returns (n: nat)
    requires StreamingCodec(codec) && r <= |Compressed(codec, WrapEach(fs))|
    ensures n <= |WrapAll(fs)|
    ensures codec.inflate(Compressed(codec, WrapEach(fs))[..r]) == WrapAll(fs)[..n]
  {
    var stream := Compressed(codec, WrapEach(fs));
    InflateWhole(codec, fs);
    InflateMonotone(codec, stream[..r], stream);
    n := |codec.inflate(stream[..r])|;
  }

  /** ... and all of every frame that ends within them. */
  lemma PlainCovers(codec: Codec, fs: seq<Frame>, r: nat, j: nat)
    requires StreamingCodec(codec) && r <= |Compressed(codec, WrapEach(fs))|
    requires j <= |fs| && |Compressed(codec, WrapEach(fs[..j]))| <= r
    ensures |WrapAll(fs[..j])| <= |codec.inflate(Compressed(codec, WrapEach(fs))[..r])|
  {
    hide StreamingCodec, Compressed, WrapEach, WrapAll;
    var stream := Compressed(codec, WrapEach(fs));
    WrapEachAt(fs, j);
    CompressedPrefix(codec, WrapEach(fs), j);
    InflateWhole(codec, fs[..j]);
    var part := Compressed(codec, WrapEach(fs[..j]));
    assert part == stream[..|part|];
    assert part <= stream[..r];
    InflateMonotone(codec, part, stream[..r]);
  }

  /**
   A receiver that has fed its decompressor the first `r` compressed bytes has parsed a prefix of
   the submitted frames, and at least every frame that ends within those bytes.
   */
  lemma ParsedFrames(codec: Codec, fs: seq<Frame>, r: nat)
    requires StreamingCodec(codec) && AllFit(fs)
    requires r <= |Compressed(codec, WrapEach(fs))|
    ensures var p := Parse(codec.inflate(Compressed(codec, WrapEach(fs))[..r]));
            && |p.frames| <= |fs| && p.frames == fs[..|p.frames|]
            && forall j | 0 <= j <= |fs| && |Compressed(codec, WrapEach(fs[..j]))| <= r :: j <= |p.frames|
  {
    var n := PlainIsPrefix(codec, fs, r);
    ParseOfPrefix(fs, n);
    hide Parse, StreamingCodec, Compressed, WrapEach;
    var p := Parse(WrapAll(fs)[..n]);
    forall j | 0 <= j <= |fs| && |Compressed(codec, WrapEach(fs[..j]))| <= r
      ensures j <= |p.frames|
    {
      PlainCovers(codec, fs, r, j);
      WhollyAtLeast(fs, n, j);
    }
  }

  /** `Intake` with the `Arq` inbox not yet drained. */
  ghost predicate Counted(codec: Codec, r: State) {
    Parse(codec.inflate(r.fed)).rest == r.buf && |Parse(codec.inflate(r.fed)).frames| == r.rxFrames
  }

  lemma DeliverCounts(codec: Codec, s: State)
    requires StreamingCodec(codec) && Counted(codec, s)
    ensures var s' := Deliver(codec, s);
            && Intake(codec, s') && s'.fed == s.fed + s.arq.inbox
            && s'.rxFrames >= s.rxFrames
            && s'.got == s.got + Parse(codec.inflate(s'.fed)).frames[s.rxFrames..]
  {
    var raw := s.arq.inbox;
    if raw == [] {
      assert s.fed + raw == s.fed;
      assert s.got + [] == s.got;
    } else {
      assert s.fed <= s.fed + raw;
      var before, after := codec.inflate(s.fed), codec.inflate(s.fed + raw);
      assert before + Inflated(codec, s.fed, raw) == after;
      ParseInParts(before, Inflated(codec, s.fed, raw));
      hide Parse;
      assert Parse(after).frames[s.rxFrames..] == Parse(s.buf + Inflated(codec, s.fed, raw)).frames;
    }
  }

  /** What `Net.Pair` says about a receiver whose inbox is drained. */
  lemma FedIsPrefix(codec: Codec, x: State, y: State, cx: Net.Cuts, cy: Net.Cuts)
    requires Pair(codec, x, y, cx, cy)
    ensures var stream := Compressed(codec, x.chunks);
            x.arq.SndUna() <= y.arq.rcvNxt <= |stream| && y.fed + y.arq.inbox == stream[..y.arq.rcvNxt]
  {
  }

  // ----- The Arq world underneath -----

  lemma FlushPair(codec: Codec, x: State, y: State, cx: Net.Cuts, cy: Net.Cuts)
    requires Pair(codec, x, y, cx, cy)
    ensures Pair(codec, Flush(x), y, cx, cy)
  {
    hide Net.Pair, Compressed;
    var x' := Flush(x);
    Net.QuietStep(ArqEnd(codec, x), ArqEnd(codec, x'), ArqEnd(codec, y), Network(x, y), Network(x', y), cx, cy);
  }

  lemma HeartbeatPair(codec: Codec, x: State, y: State, cx: Net.Cuts, cy: Net.Cuts, now: int)
    requires Pair(codec, x, y, cx, cy)
    ensures Pair(codec, Heartbeat(x, now), y, cx, cy)
  {
    hide Net.Pair, Compressed;
    var x' := Heartbeat(x, now);
    Net.QuietStep(ArqEnd(codec, x), ArqEnd(codec, x'), ArqEnd(codec, y), Network(x, y), Network(x', y), cx, cy);
  }

  lemma TransmitPair(codec: Codec, x: State, y: State, cx: Net.Cuts, cy: Net.Cuts, frame: Frame, now: int)
    returns (cx': Net.Cuts)
    requires Pair(codec, x, y, cx, cy)
    ensures Pair(codec, Transmit(codec, x, frame, now), y, cx', cy)
  {
    hide Net.Pair, Wrap;
    var comp := codec.deflate(x.chunks, Wrap(frame));
    cx' := Net.SendStep(ArqEnd(codec, x), ArqEnd(codec, y), Network(x, y), cx, cy, comp, now);
    var x1 := x.(chunks := x.chunks + [Wrap(frame)], arq := Arq.AppSend(x.arq, comp, now));
    assert x1.chunks[..|x1.chunks| - 1] == x.chunks;
    FlushPair(codec, x1, y, cx', cy);
    assert ArqEnd(codec, Flush(x1)) == ArqEnd(codec, Transmit(codec, x, frame, now));
  }

  lemma ReceivePair(codec: Codec, x: State, y: State, cx: Net.Cuts, cy: Net.Cuts, d: Arq.Datagram, now: int)
    returns (cx': Net.Cuts)
    requires Pair(codec, x, y, cx, cy) && Net.Receivable(Network(x, y), d)
    ensures Pair(codec, x.(lastRx := now, arq := Arq.OnPacket(x.arq, d, now)), y, cx', cy)
  {
    hide Net.Pair;
    cx' := Net.RecvStep(ArqEnd(codec, x), ArqEnd(codec, y), Network(x, y), cx, cy, d, now);
  }

  lemma TimerPair(codec: Codec, x: State, y: State, cx: Net.Cuts, cy: Net.Cuts, now: int)
    returns (cx': Net.Cuts)
    requires Pair(codec, x, y, cx, cy)
    ensures Pair(codec, x.(arq := Arq.Tick(x.arq, now)), y, cx', cy)
  {
    hide Net.Pair;
    cx' := Net.TickStep(ArqEnd(codec, x), ArqEnd(codec, y), Network(x, y), cx, cy, now);
  }

  lemma DeliverPair(codec: Codec, x: State, y: State, cx: Net.Cuts, cy: Net.Cuts)
    requires Pair(codec, x, y, cx, cy)
    ensures Pair(codec, Deliver(codec, x), y, cx, cy)
  {
    hide Net.Pair, Compressed, Parse, Inflated;
    var x' := Deliver(codec, x);
    assert x'.fed + x'.arq.inbox == x.fed + x.arq.inbox;
    Net.QuietStep(ArqEnd(codec, x), ArqEnd(codec, x'), ArqEnd(codec, y), Network(x, y), Network(x', y), cx, cy);
  }

  // ----- The queue -----

  lemma {:induction false} FramesOfDrop(rs: seq<Record>, k: nat)
    requires k <= |rs|
    ensures |FramesOf(rs)| == |rs| && FramesOf(rs[k..]) == FramesOf(rs)[k..]
  {
    if rs != [] {
      FramesOfDrop(rs[1..], if k > 0 then k - 1 else 0);
      if k > 0 { assert rs[1..][k - 1..] == rs[k..]; } else { assert rs[0..] == rs; }
    }
  }

  lemma {:induction false} FramesOfSnoc(rs: seq<Record>, r: Record)
    ensures FramesOf(rs + [r]) == FramesOf(rs) + [r.frame]
  {
    if rs == [] {
      assert rs + [r] == [r] && [r][1..] == [];
    } else {
      assert (rs + [r])[1..] == rs[1..] + [r];
      FramesOfSnoc(rs[1..], r);
    }
  }

  lemma {:induction false} EndsSnoc(codec: Codec, chunks: seq<seq<Byte>>, txOff: nat, rs: seq<Record>, base: nat,
                                    r: Record)
    requires Ends(codec, chunks, txOff, rs, base)
    requires r.end == if base + |rs| < |chunks| then |Compressed(codec, chunks[..base + |rs| + 1])| else txOff
    ensures Ends(codec, chunks, txOff, rs + [r], base)
  {
    hide Compressed;
    if rs == [] {
      assert rs + [r] == [r] && [r][1..] == [];
    } else {
      assert (rs + [r])[1..] == rs[1..] + [r];
      EndsSnoc(codec, chunks, txOff, rs[1..], base + 1, r);
    }
  }

  /** A further chunk does not move the ends of frames already transmitted. */
  lemma {:induction false} EndsGrow(codec: Codec, chunks: seq<seq<Byte>>, txOff: nat, rs: seq<Record>, base: nat,
                                    chunk: seq<Byte>, txOff': nat)
    requires Ends(codec, chunks, txOff, rs, base) && base + |rs| <= |chunks|
    ensures Ends(codec, chunks + [chunk], txOff', rs, base)
  {
    hide Compressed;
    if rs != [] {
      assert (chunks + [chunk])[..base + 1] == chunks[..base + 1];
      EndsGrow(codec, chunks, txOff, rs[1..], base + 1, chunk, txOff');
    }
  }

  // ----- Pruning -----

  /** Every frame acknowledged byte for byte is one the peer has counted. */
  ghost predicate AckedWithin(codec: Codec, s: State, limit: nat) {
    forall j | 0 <= j <= |s.chunks| && |Compressed(codec, s.chunks[..j])| <= s.arq.SndUna() :: j <= limit
  }

  lemma AckedIsCounted(codec: Codec, x: State, subX: seq<Frame>, y: State, cx: Net.Cuts, cy: Net.Cuts)
    requires StreamingCodec(codec) && Pair(codec, x, y, cx, cy) && Books(codec, x, subX) && Intake(codec, y)
    ensures AckedWithin(codec, x, y.rxFrames)
    ensures y.rxFrames <= |x.chunks| && Parse(codec.inflate(y.fed)).frames == subX[..y.rxFrames]
  {
    hide Net.Pair, Parse, StreamingCodec, Compressed, Ends, WrapEach, FramesOf;
    var fs := subX[..|x.chunks|];
    FedIsPrefix(codec, x, y, cx, cy);
    ParsedFrames(codec, fs, y.arq.rcvNxt);
    assert y.fed + [] == y.fed;
    EachChunk(codec, x.chunks, fs);
    assert fs[..y.rxFrames] == subX[..y.rxFrames];
  }

  lemma EachChunk(codec: Codec, chunks: seq<seq<Byte>>, fs: seq<Frame>)
    requires chunks == WrapEach(fs)
    ensures |chunks| == |fs|
    ensures forall j | 0 <= j <= |fs| :: Compressed(codec, chunks[..j]) == Compressed(codec, WrapEach(fs[..j]))
  {
    hide Compressed, WrapEach;
    forall j | 0 <= j <= |fs|
      ensures |chunks| == |fs| && chunks[..j] == WrapEach(fs[..j])
    {
      WrapEachAt(fs, j);
    }
    WrapEachAt(fs, 0);
  }

  lemma {:induction false} PruneKeeps(codec: Codec, s: State, sub: seq<Frame>, limit: nat)
    requires Books(codec, s, sub) && |s.chunks| == |sub| && s.phase != Failed
    requires s.txBase <= limit && AckedWithin(codec, s, limit)
    ensures var s' := Prune(s);
            Books(codec, s', sub) && s'.txBase <= limit && s' == s.(sent := s'.sent, txBase := s'.txBase)
    decreases |s.sent|
  {
    hide Compressed, WrapEach;
    FramesOfDrop(s.sent, 0);
    if s.sent != [] && s.sent[0].end <= s.arq.SndUna() {
      var s1 := s.(sent := s.sent[1..], txBase := s.txBase + 1);
      assert s.txBase + 1 <= limit;
      assert Books(codec, s1, sub);
      PruneKeeps(codec, s1, sub, limit);
    }
  }

  // ----- Events -----

  /** The state of both links at `x`, where `x` may still have undelivered bytes in its inbox. */
  ghost predicate Links(codec: Codec, x: State, subX: seq<Frame>, readX: nat, y: State, subY: seq<Frame>, readY: nat) {
    && Link(codec, x, subX, y, readY)
    && Books(codec, y, subY) && Counted(codec, x) && Channel(y, subY, x, readX)
    && y.txBase <= x.rxFrames <= |y.chunks|
  }

  lemma PruneStep(codec: Codec, x: State, subX: seq<Frame>, readX: nat, y: State, subY: seq<Frame>, readY: nat,
                  cx: Net.Cuts, cy: Net.Cuts)
    requires StreamingCodec(codec) && Pair(codec, x, y, cx, cy)
    requires Links(codec, x, subX, readX, y, subY, readY) && x.phase != Failed && |x.chunks| == |subX|
    ensures Links(codec, Prune(x), subX, readX, y, subY, readY)
    ensures Prune(x) == x.(sent := Prune(x).sent, txBase := Prune(x).txBase)
  {
    hide Pair, Books, AckedWithin, Prune, Parse, UpRx;
    AckedIsCounted(codec, x, subX, y, cx, cy);
    PruneKeeps(codec, x, subX, y.rxFrames);
  }

  /** Delivery touches only the receiving fields. */
  lemma DeliverFrame(codec: Codec, x: State)
    ensures var x' := Deliver(codec, x);
            x' == x.(arq := Arq.TakeInbox(x.arq), fed := x'.fed, buf := x'.buf, rxFrames := x'.rxFrames, got := x'.got)
  {
    hide Parse, Inflated;
  }

  lemma DeliverBooks(codec: Codec, x: State, sub: seq<Frame>)
    requires Books(codec, x, sub)
    ensures Books(codec, Deliver(codec, x), sub)
  {
    DeliverFrame(codec, x);
    hide Deliver, Compressed, WrapEach;
    SameBooks(codec, x, Deliver(codec, x), sub);
  }

  /** The books mention only the sending fields. */
  lemma SameBooks(codec: Codec, x: State, x': State, sub: seq<Frame>)
    requires Books(codec, x, sub)
    requires x'.chunks == x.chunks && x'.sent == x.sent && x'.txBase == x.txBase && x'.txOff == x.txOff
    requires x'.phase == x.phase && x'.resent == x.resent
    ensures Books(codec, x', sub)
  {
    hide Compressed, WrapEach, Ends;
  }

  lemma ChunksWithin(codec: Codec, s: State, sub: seq<Frame>)
    requires Books(codec, s, sub)
    ensures |s.chunks| <= |sub|
  {
  }

  /** The frames a live receiver has been handed are the ones it has counted. */
  lemma GotIsCounted(x: State, subX: seq<Frame>, readX: nat, y: State, subY: seq<Frame>, readY: nat)
    requires Channel(x, subX, y, readY) && Channel(y, subY, x, readX) && x.phase == Up
    ensures x.inband == [] && y.phase != Failed && readX == 0 && x.got == subY[..x.rxFrames]
  {
    assert subY[..x.rxFrames] + [] == subY[..x.rxFrames];
  }

  lemma DeliverChannel(x: State, x': State, subX: seq<Frame>, readX: nat, y: State, subY: seq<Frame>, readY: nat)
    requires Channel(x, subX, y, readY) && Channel(y, subY, x, readX) && x.phase == Up
    requires x'.phase == Up && x'.inband == x.inband && x.rxFrames <= x'.rxFrames <= |subY|
    requires x'.got == x.got + subY[..x'.rxFrames][x.rxFrames..]
    ensures Channel(x', subX, y, readY) && Channel(y, subY, x', readX)
  {
    GotIsCounted(x, subX, readX, y, subY, readY);
    assert subY[..x.rxFrames] + subY[..x'.rxFrames][x.rxFrames..] == subY[..x'.rxFrames];
    assert x'.got + [] == x'.got;
  }

  lemma DeliverStep(codec: Codec, x: State, subX: seq<Frame>, readX: nat, y: State, subY: seq<Frame>, readY: nat,
                    cx: Net.Cuts, cy: Net.Cuts)
    requires StreamingCodec(codec) && Pair(codec, x, y, cx, cy)
    requires Links(codec, x, subX, readX, y, subY, readY) && x.phase == Up
    ensures var x' := Deliver(codec, x);
            Link(codec, x', subX, y, readY) && Link(codec, y, subY, x', readX) && Pair(codec, x', y, cx, cy)
  {
    hide Pair, Books, Intake, Deliver, Counted, Channel, Parse, AckedWithin;
    var x' := Deliver(codec, x);
    DeliverCounts(codec, x);
    DeliverFrame(codec, x);
    DeliverPair(codec, x, y, cx, cy);
    SwapPair(codec, x', y, cx, cy);
    AckedIsCounted(codec, y, subY, x', cy, cx);
    DeliverBooks(codec, x, subX);
    ChunksWithin(codec, y, subY);
    DeliverChannel(x, x', subX, readX, y, subY, readY);
  }

  lemma SwapPair(codec: Codec, x: State, y: State, cx: Net.Cuts, cy: Net.Cuts)
    requires Pair(codec, x, y, cx, cy)
    ensures Pair(codec, y, x, cy, cx)
  {
    assert Network(x, y) == Network(y, x);
    hide Net.Pair;
    Net.PairSwap(ArqEnd(codec, x), ArqEnd(codec, y), Network(x, y), cx, cy);
  }

  lemma FlushLinks(codec: Codec, x: State, subX: seq<Frame>, readX: nat, y: State, subY: seq<Frame>, readY: nat)
    requires Links(codec, x, subX, readX, y, subY, readY) && x.phase == Up
    ensures var x1 := Flush(x);
            Links(codec, x1, subX, readX, y, subY, readY) && x1.phase == Up && |x1.chunks| == |subX|
  {
    hide Compressed, WrapEach, Parse;
  }

  /** The Arq world sees only four fields. */
  lemma SamePair(codec: Codec, x: State, x': State, y: State, cx: Net.Cuts, cy: Net.Cuts)
    requires Pair(codec, x, y, cx, cy)
    requires x'.arq == x.arq && x'.chunks == x.chunks && x'.fed == x.fed && x'.wire == x.wire
    ensures Pair(codec, x', y, cx, cy)
  {
    hide Net.Pair;
    assert Network(x', y) == Network(x, y);
  }

  lemma SettleKeeps(codec: Codec, x: State, subX: seq<Frame>, readX: nat, y: State, subY: seq<Frame>, readY: nat,
                    cx: Net.Cuts, cy: Net.Cuts)
    requires StreamingCodec(codec) && Pair(codec, x, y, cx, cy)
    requires Links(codec, x, subX, readX, y, subY, readY) && x.phase == Up
    ensures var x' := Settle(codec, x);
            Link(codec, x', subX, y, readY) && Link(codec, y, subY, x', readX) && Pair(codec, x', y, cx, cy)
  {
    var x1 := Flush(x);
    FlushPair(codec, x, y, cx, cy);
    FlushLinks(codec, x, subX, readX, y, subY, readY);
    hide Flush, Link, Links, Books, Channel, Counted;
    PruneStep(codec, x1, subX, readX, y, subY, readY, cx, cy);
    SamePair(codec, x1, Prune(x1), y, cx, cy);
    hide Pair, Net.Pair;
    DeliverStep(codec, Prune(x1), subX, readX, y, subY, readY, cx, cy);
  }

  lemma DatagramKeeps(codec: Codec, x: State, subX: seq<Frame>, readX: nat, y: State, subY: seq<Frame>, readY: nat,
                      cx: Net.Cuts, cy: Net.Cuts, d: Arq.Datagram, now: int) returns (cx': Net.Cuts)
    requires StreamingCodec(codec) && Pair(codec, x, y, cx, cy)
    requires Link(codec, x, subX, y, readY) && Link(codec, y, subY, x, readX)
    requires Net.Receivable(Network(x, y), d)
    ensures var x' := OnReadable(codec, x, d, now);
            Link(codec, x', subX, y, readY) && Link(codec, y, subY, x', readX) && Pair(codec, x', y, cx', cy)
  {
    cx' := cx;
    if x.phase == Up {
      cx' := ReceivePair(codec, x, y, cx, cy, d, now);
      var x1 := x.(lastRx := now, arq := Arq.OnPacket(x.arq, d, now));
      ArqLinks(codec, x, x1, subX, readX, y, subY, readY);
      hide Link, Links, Pair, Settle;
      SettleKeeps(codec, x1, subX, readX, y, subY, readY, cx', cy);
    }
  }

  /** Work in the Arq, on the wire or on the clock leaves the books as they are. */
  lemma ArqLinks(codec: Codec, x: State, x': State, subX: seq<Frame>, readX: nat, y: State, subY: seq<Frame>,
                 readY: nat)
    requires Link(codec, x, subX, y, readY) && Link(codec, y, subY, x, readX)
    requires x' == x.(arq := x'.arq, lastRx := x'.lastRx, wire := x'.wire, ctlSeq := x'.ctlSeq, nextHb := x'.nextHb)
    ensures Links(codec, x', subX, readX, y, subY, readY)
  {
    SameBooks(codec, x, x', subX);
    hide Books, Parse;
  }

  lemma TimerKeeps(codec: Codec, x: State, subX: seq<Frame>, readX: nat, y: State, subY: seq<Frame>, readY: nat,
                   cx: Net.Cuts, cy: Net.Cuts, now: int) returns (cx': Net.Cuts)
    requires StreamingCodec(codec) && Pair(codec, x, y, cx, cy)
    requires Link(codec, x, subX, y, readY) && Link(codec, y, subY, x, readX)
    ensures var x' := Tick(codec, x, now);
            Link(codec, x', subX, y, readY) && Link(codec, y, subY, x', readX) && Pair(codec, x', y, cx', cy)
  {
    cx' := cx;
    hide Pair, BeginRevert;
    if x.phase == Up && now - x.lastRx > DEAD_MS {
      hide Link;
      BeginKeeps(codec, x, subX, readX, y, subY, readY, cx, cy);
    } else if x.phase == Up {
      var x1 := Heartbeat(x, now);
      HeartbeatPair(codec, x, y, cx, cy, now);
      cx' := TimerPair(codec, x1, y, cx, cy, now);
      var x2 := x1.(arq := Arq.Tick(x1.arq, now));
      ArqLinks(codec, x, x2, subX, readX, y, subY, readY);
      hide Link, Links, Settle;
      SettleKeeps(codec, x2, subX, readX, y, subY, readY, cx', cy);
    }
  }

  lemma BeginKeeps(codec: Codec, x: State, subX: seq<Frame>, readX: nat, y: State, subY: seq<Frame>, readY: nat,
                   cx: Net.Cuts, cy: Net.Cuts)
    requires StreamingCodec(codec) && Pair(codec, x, y, cx, cy)
    requires Link(codec, x, subX, y, readY) && Link(codec, y, subY, x, readX)
    ensures var x' := BeginRevert(x);
            Link(codec, x', subX, y, readY) && Link(codec, y, subY, x', readX) && Pair(codec, x', y, cx, cy)
    ensures if x.phase == Up then BeginRevert(x).phase == Reverting else BeginRevert(x) == x
  {
    hide Pair, Prune, Books, Parse, AckedWithin, UpRx, Channel;
    if x.phase == Up {
      AckedIsCounted(codec, x, subX, y, cx, cy);
      BeginBooks(codec, x, subX, y.rxFrames);
      SamePair(codec, x, BeginRevert(x), y, cx, cy);
      BeginChannel(x, BeginRevert(x), subX, readX, y, subY, readY);
    }
  }

  lemma BeginChannel(x: State, x': State, subX: seq<Frame>, readX: nat, y: State, subY: seq<Frame>, readY: nat)
    requires Channel(x, subX, y, readY) && Channel(y, subY, x, readX) && x.phase == Up
    requires x' == x.(phase := Reverting, sent := x'.sent, txBase := x'.txBase, inband := x.inband + [UpRx(x.rxFrames)])
    ensures Channel(x', subX, y, readY) && Channel(y, subY, x', readX)
  {
    hide UpRx;
    GotIsCounted(x, subX, readX, y, subY, readY);
    assert x'.got + [] == x'.got;
  }

  lemma BeginBooks(codec: Codec, x: State, sub: seq<Frame>, limit: nat)
    requires Books(codec, x, sub) && x.phase == Up && x.txBase <= limit && AckedWithin(codec, x, limit)
    ensures var x' := BeginRevert(x);
            && Books(codec, x', sub) && x'.txBase <= limit && x'.phase == Reverting
            && x' == x.(phase := Reverting, sent := x'.sent, txBase := x'.txBase,
                        inband := x.inband + [UpRx(x.rxFrames)])
  {
    hide Compressed, WrapEach;
    var x1 := x.(phase := Reverting);
    assert Books(codec, x1, sub);
    PruneKeeps(codec, x1, sub, limit);
    hide Prune;
  }

  // ----- Submitting -----

  lemma TransmitShape(codec: Codec, x: State, frame: Frame, now: int)
    ensures var x' := Transmit(codec, x, frame, now);
            && x'.chunks == x.chunks + [Wrap(frame)]
            && x'.txOff == x.txOff + |codec.deflate(x.chunks, Wrap(frame))|
            && x'.sent == x.sent + [Record(x'.txOff, frame)]
            && x'.phase == x.phase && x'.txBase == x.txBase && x'.resent == x.resent
  {
    hide Wrap;
  }

  lemma CompressedNext(codec: Codec, chunks: seq<seq<Byte>>, c: seq<Byte>)
    ensures |Compressed(codec, chunks + [c])| == |Compressed(codec, chunks)| + |codec.deflate(chunks, c)|
  {
    assert (chunks + [c])[..|chunks|] == chunks;
  }

  lemma TransmitBooks(codec: Codec, x: State, sub: seq<Frame>, frame: Frame, now: int)
    requires Books(codec, x, sub) && x.phase == Up && Fits32(frame)
    ensures Books(codec, Transmit(codec, x, frame, now), sub + [frame])
  {
    var x' := Transmit(codec, x, frame, now);
    TransmitShape(codec, x, frame, now);
    hide Wrap, Transmit, Compressed, Ends, FramesOf;
    CompressedNext(codec, x.chunks, Wrap(frame));
    assert x'.chunks[..|x.chunks|] == x.chunks && x'.chunks[..|x'.chunks|] == x'.chunks;
    var sub' := sub + [frame];
    assert sub[..|x.chunks|] == sub && sub'[..|x'.chunks|] == sub' && sub'[..|sub|] == sub;
    FramesOfDrop(x.sent, 0);
    FramesOfSnoc(x.sent, Record(x'.txOff, frame));
    EndsGrow(codec, x.chunks, x.txOff, x.sent, x.txBase, Wrap(frame), x'.txOff);
    EndsSnoc(codec, x'.chunks, x'.txOff, x.sent, x.txBase, Record(x'.txOff, frame));
    assert sub'[x.txBase..] == sub[x.txBase..] + [frame];
  }

  lemma HoldBooks(codec: Codec, x: State, sub: seq<Frame>, frame: Frame)
    requires Books(codec, x, sub) && x.phase == Reverting && Fits32(frame)
    ensures Books(codec, Hold(x, frame), sub + [frame])
  {
    hide Compressed, WrapEach;
    FramesOfDrop(x.sent, 0);
    FramesOfSnoc(x.sent, Record(x.txOff, frame));
    EndsSnoc(codec, x.chunks, x.txOff, x.sent, x.txBase, Record(x.txOff, frame));
    hide Ends, FramesOf;
    assert (sub + [frame])[..|x.chunks|] == sub[..|x.chunks|];
    assert (sub + [frame])[x.txBase..] == sub[x.txBase..] + [frame];
  }

  lemma InbandBooks(codec: Codec, x: State, sub: seq<Frame>, frame: Frame)
    requires Books(codec, x, sub) && x.phase == Failed && Fits32(frame)
    ensures Books(codec, x.(inband := x.inband + [frame]), sub + [frame])
  {
    hide Compressed, WrapEach, Ends;
    assert (sub + [frame])[..|x.chunks|] == sub[..|x.chunks|];
  }

  lemma SubmitBooks(codec: Codec, x: State, sub: seq<Frame>, frame: Frame, now: int)
    requires Books(codec, x, sub) && Fits32(frame)
    ensures Books(codec, SendDown(codec, x, frame, now), sub + [frame])
  {
    hide Books, Transmit;
    match x.phase
    case Up => TransmitBooks(codec, x, sub, frame, now);
    case Reverting => HoldBooks(codec, x, sub, frame);
    case Failed => InbandBooks(codec, x, sub, frame);
  }

  /** What submitting leaves alone. */
  lemma SubmitFrame(codec: Codec, x: State, frame: Frame, now: int)
    ensures var x' := SendDown(codec, x, frame, now);
            && x'.arq.inbox == x.arq.inbox && x'.fed == x.fed && x'.buf == x.buf && x'.phase == x.phase
            && x'.txBase == x.txBase && x'.rxFrames == x.rxFrames && x'.got == x.got
            && |x'.chunks| >= |x.chunks|
            && x'.inband == x.inband + (if x.phase == Failed then [frame] else [])
  {
    hide Wrap;
    if x.phase == Up {
      Net.FillInbox(x.arq.(pending := x.arq.pending + codec.deflate(x.chunks, Wrap(frame))), now);
    }
  }

  lemma SubmitPair(codec: Codec, x: State, y: State, cx: Net.Cuts, cy: Net.Cuts, frame: Frame, now: int)
    returns (cx': Net.Cuts)
    requires Pair(codec, x, y, cx, cy)
    ensures Pair(codec, SendDown(codec, x, frame, now), y, cx', cy)
  {
    cx' := cx;
    if x.phase == Up {
      cx' := TransmitPair(codec, x, y, cx, cy, frame, now);
    } else {
      SamePair(codec, x, SendDown(codec, x, frame, now), y, cx, cy);
    }
  }

  lemma SubmitChannel(x: State, x': State, sub: seq<Frame>, frame: Frame, r: State, read: nat)
    requires Channel(x, sub, r, read) && !StartsWith(frame, REVERT_VERB)
    requires x'.phase == x.phase && x'.rxFrames == x.rxFrames
    requires x'.inband == x.inband + (if x.phase == Failed then [frame] else [])
    ensures Channel(x', sub + [frame], r, read)
  {
    hide UpRx;
    if x.phase == Failed {
      assert x'.inband[1..] == x.inband[1..] + [frame];
    }
    assert read >= 1 ==> x'.inband[1..read] == x.inband[1..read];
    assert (sub + [frame])[..r.rxFrames] == sub[..r.rxFrames];
  }

  lemma SameChannel(s: State, sub: seq<Frame>, r: State, r': State, read: nat)
    requires Channel(s, sub, r, read)
    requires r'.phase == r.phase && r'.rxFrames == r.rxFrames && r'.got == r.got
    ensures Channel(s, sub, r', read)
  {
  }

  lemma SubmitKeeps(codec: Codec, x: State, subX: seq<Frame>, readX: nat, y: State, subY: seq<Frame>, readY: nat,
                    cx: Net.Cuts, cy: Net.Cuts, frame: Frame, now: int) returns (cx': Net.Cuts)
    requires Pair(codec, x, y, cx, cy) && Fits32(frame) && !StartsWith(frame, REVERT_VERB)
    requires Link(codec, x, subX, y, readY) && Link(codec, y, subY, x, readX)
    ensures var x' := SendDown(codec, x, frame, now);
            Link(codec, x', subX + [frame], y, readY) && Link(codec, y, subY, x', readX) && Pair(codec, x', y, cx', cy)
  {
    hide Pair, Books, SendDown, Parse, Channel;
    var x' := SendDown(codec, x, frame, now);
    SubmitBooks(codec, x, subX, frame, now);
    SubmitFrame(codec, x, frame, now);
    cx' := SubmitPair(codec, x, y, cx, cy, frame, now);
    SubmitChannel(x, x', subX, frame, y, readY);
    SameChannel(y, subY, x, x', readX);
  }

  // ----- Reading the in-band channel -----

  lemma UpRxRoundTrip(n: nat)
    ensures StartsWith(UpRx(n), REVERT_VERB) && ParseUpRx(UpRx(n)) == Some(n)
  {
    assert UpRx(n)[|REVERT_VERB|..] == Dec(n);
    NumOfDec(n);
  }

  /** The tail handed over is every submitted frame from number `n` on. */
  lemma TailIsRest(codec: Codec, x: State, sub: seq<Frame>, n: nat)
    requires Books(codec, x, sub) && x.phase == Reverting && x.txBase <= n <= |sub|
    ensures Tail(x, n) == sub[n..]
  {
    hide Ends, Compressed, WrapEach, FramesOf;
    FramesOfDrop(x.sent, 0);
    FramesOfDrop(x.sent, n - x.txBase);
    assert sub[n..] == sub[x.txBase..][n - x.txBase..];
  }

  lemma NoticeKeeps(codec: Codec, x: State, subX: seq<Frame>, readX: nat, y: State, subY: seq<Frame>, readY: nat,
                    cx: Net.Cuts, cy: Net.Cuts)
    requires StreamingCodec(codec) && Pair(codec, x, y, cx, cy)
    requires Link(codec, x, subX, y, readY) && Link(codec, y, subY, x, readX)
    requires readX == 0 && y.inband != []
    ensures var x' := PeerRevert(x, y.rxFrames);
            Link(codec, x', subX, y, readY) && Link(codec, y, subY, x', 1) && Pair(codec, x', y, cx, cy)
  {
    hide Pair, Books, BeginRevert, Tail, Parse, UpRx, Channel;
    BeginKeeps(codec, x, subX, readX, y, subY, readY, cx, cy);
    var x1, x' := BeginRevert(x), PeerRevert(x, y.rxFrames);
    NotYetRead(x, x1, subX, y, subY, readX, readY);
    OnceReverting(codec, x1, subX);
    TailIsRest(codec, x1, subX, y.rxFrames);
    SamePair(codec, x1, x', y, cx, cy);
    DoneBooks(codec, x1, x', subX);
    DoneChannel(x1, x', subX, y, readY);
    ReadNotice(x1, x', y, subY);
  }

  lemma NotYetRead(x: State, x1: State, subX: seq<Frame>, y: State, subY: seq<Frame>, readX: nat, readY: nat)
    requires Channel(y, subY, x, readX) && Channel(x1, subX, y, readY) && Channel(y, subY, x1, readX)
    requires readX == 0 && y.inband != [] && (x.phase == Up ==> x1.phase == Reverting)
    requires x.phase != Up ==> x1 == x
    ensures x1.phase == Reverting && y.phase != Up && y.rxFrames <= |subX|
  {
    hide UpRx;
  }

  lemma OnceReverting(codec: Codec, s: State, sub: seq<Frame>)
    requires Books(codec, s, sub) && s.phase == Reverting
    ensures !s.resent
  {
  }

  lemma ReadNotice(x1: State, x': State, y: State, subY: seq<Frame>)
    requires Channel(y, subY, x1, 0) && y.inband != [] && x'.phase == Failed
    requires x'.got == x1.got && x'.rxFrames == x1.rxFrames
    ensures Channel(y, subY, x', 1)
  {
    hide UpRx;
    assert y.inband[1..1] == [];
  }

  lemma DoneBooks(codec: Codec, x1: State, x': State, sub: seq<Frame>)
    requires Books(codec, x1, sub) && x1.phase == Reverting
    requires x' == x1.(resent := true, inband := x'.inband, sent := [], phase := Failed)
    ensures Books(codec, x', sub)
  {
    hide Compressed, WrapEach;
  }

  lemma DoneChannel(x1: State, x': State, sub: seq<Frame>, r: State, read: nat)
    requires Channel(x1, sub, r, read) && x1.phase == Reverting && r.phase != Up
    requires x' == x1.(resent := true, inband := x1.inband + sub[r.rxFrames..], sent := [], phase := Failed)
    ensures Channel(x', sub, r, read)
  {
    hide UpRx;
    assert x'.inband[1..] == sub[r.rxFrames..];
    assert read >= 1 ==> x'.inband[1..read] == x1.inband[1..read];
  }

  lemma DataChannel(x: State, sub: seq<Frame>, y: State, subY: seq<Frame>, readX: nat, readY: nat)
    requires Channel(x, sub, y, readY) && Channel(y, subY, x, readX)
    requires 1 <= readX < |y.inband|
    ensures !StartsWith(y.inband[readX], REVERT_VERB)
    ensures var x' := x.(got := x.got + [y.inband[readX]]);
            Channel(x', sub, y, readY) && Channel(y, subY, x', readX + 1)
  {
    hide UpRx;
    var f := y.inband[readX];
    assert f == y.inband[1..][readX - 1];
    assert f in subY;
    assert y.inband[1..readX + 1] == y.inband[1..readX] + [f];
  }

  lemma InbandKeeps(codec: Codec, x: State, subX: seq<Frame>, readX: nat, y: State, subY: seq<Frame>, readY: nat,
                    cx: Net.Cuts, cy: Net.Cuts)
    requires StreamingCodec(codec) && Pair(codec, x, y, cx, cy)
    requires Link(codec, x, subX, y, readY) && Link(codec, y, subY, x, readX)
    requires readX < |y.inband|
    ensures var x' := InbandArrives(x, y.inband[readX]);
            Link(codec, x', subX, y, readY) && Link(codec, y, subY, x', readX + 1) && Pair(codec, x', y, cx, cy)
  {
    if readX == 0 {
      UpRxRoundTrip(y.rxFrames);
      hide Pair, Link, PeerRevert;
      NoticeKeeps(codec, x, subX, readX, y, subY, readY, cx, cy);
    } else {
      DataChannel(x, subX, y, subY, readX, readY);
      var x' := x.(got := x.got + [y.inband[readX]]);
      SamePair(codec, x, x', y, cx, cy);
      SameBooks(codec, x, x', subX);
      hide Pair, Books, Parse, Channel, PeerRevert;
    }
  }

  // ----- What pruning keeps -----

  /** Pruning never drops a frame the peer has not counted, and the queue numbers every frame. */
  ghost predicate Pruned(s: State, sub: seq<Frame>, r: State) {
    && s.txBase <= r.rxFrames <= |sub|
    && (s.phase != Failed ==> FramesOf(s.sent) == sub[s.txBase..])
    && (s.inband != [] ==> s.inband[0] == UpRx(s.rxFrames))
  }

  lemma LinkPruned(codec: Codec, s: State, sub: seq<Frame>, r: State, read: nat)
    requires Link(codec, s, sub, r, read)
    ensures Pruned(s, sub, r)
  {
    hide UpRx, Compressed, WrapEach, Parse, Ends;
  }

  // ----- Both ends -----

  lemma JointSwap(codec: Codec, x: State, subX: seq<Frame>, readX: nat, y: State, subY: seq<Frame>, readY: nat)
    requires Joint(codec, x, subX, readX, y, subY, readY)
    ensures Joint(codec, y, subY, readY, x, subX, readX)
  {
    var cx: Net.Cuts, cy: Net.Cuts :| Pair(codec, x, y, cx, cy);
    hide Pair, Link;
    SwapPair(codec, x, y, cx, cy);
  }

  /** Every submit, datagram, timer and death keeps the invariant. */
  lemma StepJoint(codec: Codec, x: State, subX: seq<Frame>, readX: nat, y: State, subY: seq<Frame>, readY: nat,
                  e: Event)
    requires StreamingCodec(codec) && Joint(codec, x, subX, readX, y, subY, readY) && Proper(e)
    ensures Joint(codec, StepOne(codec, x, y, e), StepSub(subX, e), readX, y, subY, readY)
  {
    var cx: Net.Cuts, cy: Net.Cuts :| Pair(codec, x, y, cx, cy);
    hide Pair, Link, SendDown, OnReadable, Tick, BeginRevert;
    match e
    case Submit(_, frame, now) =>
      var cx' := SubmitKeeps(codec, x, subX, readX, y, subY, readY, cx, cy, frame, now);
    case Datagram(_, d, now) =>
      if Net.Receivable(Network(x, y), d) {
        var cx' := DatagramKeeps(codec, x, subX, readX, y, subY, readY, cx, cy, d, now);
      }
    case Timer(_, now) =>
      var cx' := TimerKeeps(codec, x, subX, readX, y, subY, readY, cx, cy, now);
    case Down(_) => BeginKeeps(codec, x, subX, readX, y, subY, readY, cx, cy);
  }

  /** So does the next frame of the in-band channel, arriving whole. */
  lemma ArriveJoint(codec: Codec, x: State, subX: seq<Frame>, readX: nat, y: State, subY: seq<Frame>, readY: nat)
    requires StreamingCodec(codec) && Joint(codec, x, subX, readX, y, subY, readY) && readX < |y.inband|
    ensures Joint(codec, InbandArrives(x, y.inband[readX]), subX, readX + 1, y, subY, readY)
  {
    var cx: Net.Cuts, cy: Net.Cuts :| Pair(codec, x, y, cx, cy);
    hide Pair, Link, InbandArrives;
    InbandKeeps(codec, x, subX, readX, y, subY, readY, cx, cy);
  }

  lemma StartJoint(codec: Codec, nowX: int, nowY: int, ctlX: nat, ctlY: nat)
    requires StreamingCodec(codec)
    ensures Joint(codec, Init(Net.SALT_A, Net.SALT_B, nowX, ctlX), [], 0,
                  Init(Net.SALT_B, Net.SALT_A, nowY, ctlY), [], 0)
  {
    var x, y := Init(Net.SALT_A, Net.SALT_B, nowX, ctlX), Init(Net.SALT_B, Net.SALT_A, nowY, ctlY);
    NothingSent(codec);
    StartPair(codec, x, y);
    hide StreamingCodec, Pair, Link, Compressed;
    StartLink(codec, x, y);
    StartLink(codec, y, x);
  }

  lemma StartLink(codec: Codec, x: State, y: State)
    requires Compressed(codec, []) == [] && codec.inflate([]) == []
    requires x.sent == [] && x.chunks == [] && x.txOff == x.txBase == 0 && x.phase == Up && !x.resent && x.inband == []
    requires y.fed == [] && y.buf == [] && y.arq.inbox == [] && y.rxFrames == 0 && y.phase == Up && y.got == []
    ensures Link(codec, x, [], y, 0)
  {
    NothingParsed();
    hide StreamingCodec, Parse, Compressed;
  }

  lemma NothingParsed()
    ensures Parse([]) == Parsed([], [])
  {
  }

  lemma NothingSent(codec: Codec)
    requires StreamingCodec(codec)
    ensures Compressed(codec, []) == [] && codec.inflate([]) == []
  {
    assert codec.inflate(Compressed(codec, [])) == Concat<Byte>([]);
  }

  lemma StartPair(codec: Codec, x: State, y: State)
    requires x.arq == Arq.Init(Net.SALT_A, Net.SALT_B) && y.arq == Arq.Init(Net.SALT_B, Net.SALT_A)
    requires x.chunks == [] && y.chunks == [] && x.fed == [] && y.fed == [] && x.wire == [] && y.wire == []
    ensures Pair(codec, x, y, map[], map[])
  {
  }
}
