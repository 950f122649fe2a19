/**
 Whatever happens to two backhauls, each side is handed the peer's frames in order, each once; and a
 revert loses nothing, exactly if the frames it puts on the terminal stream are put there in the clear.
 */
module Revert {
  import opened Bytes
  import opened Frames
  import Apc
  import ApcLaws
  import opened ApcFrames
  import opened Backhaul
  import opened RevertNetwork
  import opened RevertWire

  /** The revert notice, if this end has put one in-band, was put there in the clear. */
  predicate Told(s: Station) { s.clear == [] || s.clear[0] }

  lemma GotIsPrefix(s: State, sub: seq<Frame>, r: State, read: nat)
    requires Channel(s, sub, r, read)
    ensures r.got <= sub
    ensures s.phase == Failed && r.phase == Failed && read == |s.inband| ==> r.got == sub
  {
    hide UpRx;
    if read >= 1 {
      if s.phase == Failed {
        assert s.inband[1..read] == s.inband[1..][..read - 1];
        assert sub == sub[..r.rxFrames] + sub[r.rxFrames..];
      } else {
        assert |s.inband| == 1 && s.inband[1..read] == [];
      }
    }
  }

  /** What listening and the protocol under it say of one direction, `y` to `x`. */
  lemma Direction(x: Station, x0: State, y: Station, y0: State, subY: seq<Frame>, readX: nat)
    requires Listening(x, x0, y, subY, readX) && Channel(y0, subY, x0, readX)
    ensures AllClear(y.clear) ==> x.bh.got <= subY
  {
    LedAll(y.clear);
    hide UpRx, Tapped, Led, Weight;
    GotIsPrefix(y0, subY, x0, readX);
  }

  lemma FellUnclear(x: Station, subX: seq<Frame>, y: Station, subY: seq<Frame>)
    requires Fell(x, subX, y, subY)
    ensures !Told(y) && !AllClear(y.clear)
  {
    hide Tapped, Pruned, Weight, Apc.Feed;
  }

  /**
   At every moment of every run, each side has been handed a prefix of what the other submitted, in
   order, each frame once, if the other has put its frames in-band in the clear so far, and this side
   its notice.
   */
  lemma ExactlyOnceInOrder(codec: Codec, i: Setup, ms: seq<Move>)
    requires StreamingCodec(codec) && AllAllowed(codec, i, ms)
    ensures var w := Run(codec, i, ms);
            && (AllClear(w.a.clear) && Told(w.b) ==> w.b.bh.got <= Submitted(ms, A))
            && (AllClear(w.b.clear) && Told(w.a) ==> w.a.bh.got <= Submitted(ms, B))
  {
    RunInv(codec, i, ms);
    var w := Run(codec, i, ms);
    hide Run, Fell, Joint, Listening, AllClear, StreamingCodec, Told;
    if Fell(w.a, w.subA, w.b, w.subB) {
      FellUnclear(w.a, w.subA, w.b, w.subB);
    } else if Fell(w.b, w.subB, w.a, w.subA) {
      FellUnclear(w.b, w.subB, w.a, w.subA);
    } else {
      var a0, b0, readA, readB :| Ideal(codec, w, a0, b0, readA, readB);
      JointChannel(codec, a0, w.subA, readA, b0, w.subB, readB);
      Direction(w.b, b0, w.a, a0, w.subA, readB);
      Direction(w.a, a0, w.b, b0, w.subB, readA);
    }
  }

  /** What was re-sent: everything submitted that the peer had not counted. */
  lemma Resent(s: State, sub: seq<Frame>, r: State, read: nat)
    requires Channel(s, sub, r, read) && s.phase == Failed
    ensures r.rxFrames <= |sub| && s.inband != [] && s.inband[1..] == sub[r.rxFrames..]
    ensures Weight(sub) == Weight(sub[..r.rxFrames]) + Weight(s.inband[1..])
    ensures Weight(s.inband) == Weight(s.inband[..1]) + Weight(s.inband[1..])
  {
    hide UpRx, Weight;
    WeightAppend(sub[..r.rxFrames], sub[r.rxFrames..]);
    WeightAppend(s.inband[..1], s.inband[1..]);
    assert sub == sub[..r.rxFrames] + sub[r.rxFrames..] && s.inband == s.inband[..1] + s.inband[1..];
  }

  /** Once the whole line has been read, everything it says has been heard. */
  lemma AllHeard(x: Station, y: Station)
    requires Tapped(x, y) && x.pos == |y.line|
    ensures Heard(x, y) == Apc.Feed(Apc.IDLE, y.line)
    ensures Traced(Heard(x, y).output.events, y.bh.inband, y.clear) && |y.clear| == |y.bh.inband|
  {
    TappedTraced(x, y);
    CarriedLength(y.line, y.bh.inband, y.clear);
    hide Carried, WithoutFirst, Quiet, Apc.Feed, Gist;
    assert y.line[..x.pos] == y.line;
  }

  /** What one direction comes to, once the line has been read: all in the clear, or something lost. */
  lemma ReadOut(x: Station, x0: State, y: Station, y0: State, subY: seq<Frame>, readX: nat)
    requires Listening(x, x0, y, subY, readX) && y.bh.inband == y0.inband && Channel(y0, subY, x0, readX)
    requires x.pos == |y.line|
    ensures AllClear(y.clear) ==> readX == |y.bh.inband| && x.bh.got == x0.got
    ensures y0.phase != Up ==> (x.bh.phase == Failed <==> Told(y))
    ensures y0.phase == Failed && x.bh.phase == Failed && !AllClear(y.clear) ==> x.bh.got != subY
  {
    ListeningParts(x, x0, y, subY, readX);
    AllHeard(x, y);
    LedAll(y.clear);
    var heard := Heard(x, y).output.events;
    if y0.phase == Failed { Resent(y0, subY, x0, readX); }
    hide Listening, Tapped, Heard, UpRx, Led, Weight;
    Settles(x.bh, x0, y0, subY, readX, heard, y.clear);
  }

  lemma Settles(x: State, x0: State, y0: State, subY: seq<Frame>, readX: nat, heard: seq<Frame>, clear: seq<bool>)
    requires Matched(x, x0, heard, y0.inband, clear, subY, readX) && Channel(y0, subY, x0, readX)
    requires Gist(heard, y0.inband, clear)
    ensures AllClear(clear) ==> readX == |y0.inband| && x.got == x0.got
    ensures y0.phase != Up ==> (x.phase == Failed <==> clear == [] || clear[0])
    ensures y0.phase == Failed && x.phase == Failed && !AllClear(clear) ==> Weight(x.got) < Weight(subY)
  {
    LedAll(clear);
    if y0.phase == Failed { Resent(y0, subY, x0, readX); }
    if readX >= 1 { TunedWeighs(x0, y0, subY, readX); }
    hide UpRx, Led, Weight;
    assert heard <= y0.inband && readX == |heard| && readX <= |y0.inband| ==> heard == y0.inband[..readX];
  }

  lemma MatchedPhase(x: Station, x0: State, y: Station, subY: seq<Frame>, readX: nat)
    requires Listening(x, x0, y, subY, readX)
    ensures x.bh == x0.(got := x.bh.got)
  {
    hide Tapped, Tuned, Spoilt, Missed;
  }

  /** Which phases leave something in-band. */
  lemma Announced(s: State, sub: seq<Frame>, r: State, read: nat)
    requires Channel(s, sub, r, read)
    ensures s.phase != Up <==> s.inband != []
  {
    hide UpRx;
  }

  /** Both ends are in-band again and each has been handed exactly what the other submitted. */
  predicate Lossless(x: Station, subX: seq<Frame>, y: Station, subY: seq<Frame>) {
    x.bh.phase == Failed && y.bh.phase == Failed && x.bh.got == subY && y.bh.got == subX
  }

  lemma Ended(codec: Codec, x: Station, x0: State, subX: seq<Frame>, readX: nat, y: Station, y0: State,
              subY: seq<Frame>, readY: nat)
    requires Joint(codec, x0, subX, readX, y0, subY, readY)
    requires Listening(x, x0, y, subY, readX) && Listening(y, y0, x, subX, readY)
    requires x.pos == |y.line| && y.pos == |x.line| && y.bh.phase != Up
    ensures Lossless(x, subX, y, subY) <==> AllClear(x.clear) && AllClear(y.clear)
    ensures Told(x) && Told(y) ==>
              && x.bh.phase == Failed && y.bh.phase == Failed
              && (x.bh.got == subY <==> AllClear(y.clear)) && (y.bh.got == subX <==> AllClear(x.clear))
  {
    JointChannel(codec, x0, subX, readX, y0, subY, readY);
    MatchedPhase(x, x0, y, subY, readX);
    MatchedPhase(y, y0, x, subX, readY);
    hide Joint, Listening, Channel, AllClear;
    ReadOut(x, x0, y, y0, subY, readX);
    ReadOut(y, y0, x, x0, subX, readY);
    Announced(x0, subX, y0, readY);
    GotIsPrefix(x0, subX, y0, readY);
    GotIsPrefix(y0, subY, x0, readX);
    ClearTold(x);
    ClearTold(y);
    hide Told;
  }

  lemma ClearTold(s: Station)
    ensures AllClear(s.clear) ==> Told(s)
  {
  }

  lemma FellEnded(x: Station, subX: seq<Frame>, y: Station, subY: seq<Frame>)
    requires Fell(x, subX, y, subY) && x.pos == |y.line|
    ensures x.bh.got != subY
  {
    FellParts(x, subX, y, subY);
    AllHeard(x, y);
    LedAll(y.clear[1..]);
    hide Tapped, Heard, Led, Weight, UpRx, FramesOf;
    WeightAppend(subY[..x.bh.rxFrames], subY[x.bh.rxFrames..]);
    assert subY == subY[..x.bh.rxFrames] + subY[x.bh.rxFrames..];
  }

  /**
   Lossless revert, exactly. Once either side has begun to revert and both streams have been read to
   their ends: both ends are in-band again, and each has been handed exactly the frames the other
   submitted, before, during and after the drain, in order, each once, if and only if every frame that
   was put in-band was put there in the clear. If both notices were, both ends are in-band again, and
   each direction is exact if and only if its own frames were.
   */
  lemma LosslessRevert(codec: Codec, i: Setup, ms: seq<Move>)
    requires StreamingCodec(codec) && AllAllowed(codec, i, ms)
    requires var w := Run(codec, i, ms);
             (w.a.bh.phase != Up || w.b.bh.phase != Up) && w.a.pos == |w.b.line| && w.b.pos == |w.a.line|
    ensures var w := Run(codec, i, ms);
            Lossless(w.a, Submitted(ms, A), w.b, Submitted(ms, B)) <==> AllClear(w.a.clear) && AllClear(w.b.clear)
    ensures var w := Run(codec, i, ms);
            Told(w.a) && Told(w.b) ==>
              && w.a.bh.phase == Failed && w.b.bh.phase == Failed
              && (w.b.bh.got == Submitted(ms, A) <==> AllClear(w.a.clear))
              && (w.a.bh.got == Submitted(ms, B) <==> AllClear(w.b.clear))
  {
    RunInv(codec, i, ms);
    var w := Run(codec, i, ms);
    hide Run, Fell, Joint, Listening, AllClear, Submitted, StreamingCodec, Told;
    if Fell(w.a, w.subA, w.b, w.subB) {
      FellUnclear(w.a, w.subA, w.b, w.subB);
      FellEnded(w.a, w.subA, w.b, w.subB);
    } else if Fell(w.b, w.subB, w.a, w.subA) {
      FellUnclear(w.b, w.subB, w.a, w.subA);
      FellEnded(w.b, w.subB, w.a, w.subA);
    } else {
      var a0, b0, readA, readB :| Ideal(codec, w, a0, b0, readA, readB);
      if w.b.bh.phase != Up {
        Ended(codec, w.a, a0, w.subA, readA, w.b, b0, w.subB, readB);
      } else {
        JointSwap(codec, a0, w.subA, readA, b0, w.subB, readB);
        Ended(codec, w.b, b0, w.subB, readB, w.a, a0, w.subA, readA);
      }
    }
  }

  // ----- When frames are put in the clear -----

  /** What this side types ends where it began, between sequences. */
  ghost predicate StrippedBy(ms: seq<Move>, side: Side) {
    forall i | 0 <= i < |ms| && ms[i].Types? && ms[i].side == side :: ApcLaws.Complete(ms[i].bytes)
  }

  lemma {:induction false} DispatchedGrows(x: State, events: seq<Frame>)
    ensures x.inband <= Dispatched(x, events).inband
    decreases |events|
  {
    hide InbandArrives;
    if events != [] {
      DispatchedGrows(x, events[..|events| - 1]);
      ArrivesGrows(Dispatched(x, events[..|events| - 1]), events[|events| - 1]);
    }
  }

  /** Between sequences, with every mark true that belongs to a safe frame and no other. */
  ghost predicate Tidy(x: Station) {
    && Apc.Feed(Apc.IDLE, x.line).scan == Apc.IDLE && |x.clear| == |x.bh.inband|
    && forall i | 0 <= i < |x.clear| :: x.clear[i] == ApcLaws.Safe(x.bh.inband[i])
  }

  lemma {:induction false} ClearsAt(line: seq<Byte>, fs: seq<Frame>, i: nat)
    requires Apc.Feed(Apc.IDLE, line).scan == Apc.IDLE && i < |fs|
    ensures Clears(line, fs)[i] == ApcLaws.Safe(fs[i])
  {
    hide Apc.Feed, ApcLaws.Safe, Envelopes;
    var init := fs[..|fs| - 1];
    LineIdle(line, init);
    if i < |init| { ClearsAt(line, init, i); }
  }

  lemma ClearsTidy(line: seq<Byte>, fs: seq<Frame>)
    requires Apc.Feed(Apc.IDLE, line).scan == Apc.IDLE
    ensures Apc.Feed(Apc.IDLE, line + Envelopes(fs)).scan == Apc.IDLE
    ensures forall i: nat | i < |fs| :: Clears(line, fs)[i] == ApcLaws.Safe(fs[i])
  {
    hide Apc.Feed, ApcLaws.Safe, Envelopes, Clears;
    LineIdle(line, fs);
    forall i: nat | i < |fs|
      ensures Clears(line, fs)[i] == ApcLaws.Safe(fs[i])
    {
      ClearsAt(line, fs, i);
    }
  }

  lemma BecomesTidy(x: Station, bh: State)
    requires Tidy(x) && x.bh.inband <= bh.inband
    ensures Tidy(Becomes(x, bh))
  {
    hide Apc.Feed, ApcLaws.Safe, Envelopes, Clears;
    var added := Added(x.bh.inband, bh.inband);
    ClearsTidy(x.line, added);
    assert bh.inband == x.bh.inband + added;
  }

  lemma TidyReader(x: Station, pos: nat, scan: Scanner)
    requires Tidy(x)
    ensures Tidy(x.(pos := pos, scan := scan))
  {
    hide Apc.Feed, ApcLaws.Safe;
  }

  lemma ReadTidy(x: Station, y: Station, n: nat)
    requires Tidy(x) && x.pos + n <= |y.line|
    ensures Tidy(ReadChunk(x, y, n))
  {
    hide Tidy, Becomes, Dispatched, Apc.Feed;
    var r := Apc.Feed(x.scan, y.line[x.pos..x.pos + n]);
    DispatchedGrows(x.bh, r.output.events);
    var bh := Dispatched(x.bh, r.output.events);
    BecomesTidy(x, bh);
    TidyReader(Becomes(x, bh), x.pos + n, r.scan);
  }

  lemma MoveTidy(codec: Codec, x: Station, y: Station, m: Move)
    requires Tidy(x) && (m.Types? ==> ApcLaws.Complete(m.bytes))
    ensures Tidy(MoveOne(codec, x, y, m))
  {
    match m
    case Does(e) =>
      StepApart(codec, x.bh, y.bh, x.bh.got, y.bh.got, e);
      hide StepOne, Tidy, Becomes;
      BecomesTidy(x, StepOne(codec, x.bh, y.bh, e));
    case Types(_, bytes) =>
      hide Apc.Feed, ApcLaws.Safe;
      Apc.FeedInParts(Apc.IDLE, x.line, bytes);
    case Reads(_, n) =>
      hide Tidy, ReadChunk;
      if x.pos + n <= |y.line| { ReadTidy(x, y, n); }
  }

  lemma {:induction false} RunTidy(codec: Codec, i: Setup, ms: seq<Move>)
    ensures StrippedBy(ms, A) ==> Tidy(Run(codec, i, ms).a)
    ensures StrippedBy(ms, B) ==> Tidy(Run(codec, i, ms).b)
  {
    if ms == [] {
      ApcLaws.FeedNothing(Apc.IDLE);
    } else {
      var init, m := ms[..|ms| - 1], ms[|ms| - 1];
      var w := Run(codec, i, init);
      RunTidy(codec, i, init);
      assert forall k | 0 <= k < |init| :: init[k] == ms[k];
      hide Tidy, MoveOne, ApcLaws.Complete, Run;
      RunOne(codec, i, ms);
      if StrippedBy(ms, A) && Mover(m) == A { MoveTidy(codec, w.a, w.b, m); }
      if StrippedBy(ms, B) && Mover(m) == B { MoveTidy(codec, w.b, w.a, m); }
    }
  }

  lemma RunOne(codec: Codec, i: Setup, ms: seq<Move>)
    requires ms != []
    ensures Run(codec, i, ms) == Step(codec, Run(codec, i, ms[..|ms| - 1]), ms[|ms| - 1])
  {
  }

  /**
   A side that types only what ends between sequences, as a mux does with what it forwards of its child,
   puts a frame in the clear exactly if the frame is safe.
   */
  lemma StrippedClear(codec: Codec, i: Setup, ms: seq<Move>)
    ensures var w := Run(codec, i, ms);
            && (StrippedBy(ms, A) ==> (AllClear(w.a.clear) <==> AllSafe(w.a.bh.inband)))
            && (StrippedBy(ms, B) ==> (AllClear(w.b.clear) <==> AllSafe(w.b.bh.inband)))
  {
    RunTidy(codec, i, ms);
    hide Run, ApcLaws.Safe, Apc.Feed, StrippedBy;
  }

  // An ESC is typed, and then the path dies.

  const ESCAPE: seq<Byte> := [Apc.ESC]

  function Escaped(i: Setup): seq<Move> {
    [Types(A, ESCAPE)] + [Does(Down(A))] + [Reads(B, |ESCAPE + Apc.Envelope(UpRx(0))|)]
  }

  lemma EscapeTyped()
    ensures Keys([], ESCAPE) && Apc.Feed(Apc.IDLE, ESCAPE).scan == Apc.Scan(Apc.Esc, ESCAPE)
    ensures ESCAPE + Envelopes([UpRx(0)]) == ESCAPE + Apc.Envelope(UpRx(0)) && Clears(ESCAPE, [UpRx(0)]) == [false]
  {
    ApcLaws.FeedNothing(Apc.IDLE);
    assert ESCAPE[1..] == [];
    assert Apc.Feed(Apc.IDLE, ESCAPE) == Apc.Fed(Apc.Scan(Apc.Esc, ESCAPE), Apc.NOTHING);
    hide Apc.Feed, Apc.Envelope;
    var f := UpRx(0);
    var none: seq<Frame> := [];
    assert [f][..0] == none;
    assert [] + Apc.Envelope(f) == Apc.Envelope(f);
    assert ESCAPE + Envelopes([]) == ESCAPE;
    assert Clears(ESCAPE, [f]) == Clears(ESCAPE, []) + [Clearly(ESCAPE + Envelopes([]), f)];
  }

  lemma TypedFirst(codec: Codec, i: Setup, bytes: seq<Byte>)
    requires Keys([], bytes)
    ensures AllAllowed(codec, i, [Types(A, bytes)])
    ensures Run(codec, i, [Types(A, bytes)]) == Start(i).(a := Start(i).a.(line := bytes))
  {
    hide Keys;
    var m := Types(A, bytes);
    var none: seq<Move> := [];
    assert [m][..0] == none;
    assert Run(codec, i, none) == Start(i);
    assert Start(i).a.line + bytes == bytes;
  }

  /** The path dies with nothing sent: the notice says that nothing was counted. */
  lemma DownFirst(s: Station)
    requires s.bh.phase == Up && s.bh.sent == [] && s.bh.inband == [] && s.clear == []
    ensures var s', added := Becomes(s, BeginRevert(s.bh)), [UpRx(s.bh.rxFrames)];
            s'.bh.phase == Reverting && s'.line == s.line + Envelopes(added) && s'.clear == Clears(s.line, added) &&
            s'.pos == s.pos
  {
    hide UpRx, Envelopes, Clears;
    assert BeginRevert(s.bh).inband == [UpRx(s.bh.rxFrames)];
  }

  lemma EscapeSteps(codec: Codec, i: Setup)
    ensures var ms := [Types(A, ESCAPE)] + [Does(Down(A))];
            var w := Run(codec, i, ms);
            && AllAllowed(codec, i, ms) && w.a.bh.phase == Reverting && w.a.line == ESCAPE + Apc.Envelope(UpRx(0))
            && w.a.clear == [false] && w.a.pos == 0 && w.b == Start(i).b
  {
    EscapeTyped();
    TypedFirst(codec, i, ESCAPE);
    hide Apc.Feed, Apc.Envelope, Keys, Envelopes, Clears, UpRx;
    var first := [Types(A, ESCAPE)];
    var ms := first + [Does(Down(A))];
    assert ms[..1] == first;
    RunOne(codec, i, ms);
    var w1 := Run(codec, i, first);
    DownFirst(w1.a);
    hide Run;
  }

  /**
   An ESC typed before the notice: the notice is never heard, and with both streams read to their ends one
   side waits in its revert while the other is still up.
   */
  lemma LoneEscape(codec: Codec, i: Setup)
    ensures var ms := Escaped(i);
            var w := Run(codec, i, ms);
            && AllAllowed(codec, i, ms) && w.a.pos == |w.b.line| && w.b.pos == |w.a.line|
            && w.a.bh.phase == Reverting && w.b.bh.phase == Up && !Told(w.a)
  {
    EscapeSteps(codec, i);
    NoticeQuiet(0);
    EscapeLoses(UpRx(0));
    var before := [Types(A, ESCAPE)] + [Does(Down(A))];
    var line := ESCAPE + Apc.Envelope(UpRx(0));
    var ms := before + [Reads(B, |line|)];
    assert ms[..|before|] == before;
    hide Run, Apc.Feed, Apc.Envelope, UpRx, Quiet, Keys;
    RunOne(codec, i, ms);
    var w := Run(codec, i, before);
    assert w.a.line[0..|line|] == line;
    AllowedRead(codec, i, before, |line|);
  }

  lemma AllowedRead(codec: Codec, i: Setup, ms: seq<Move>, n: nat)
    requires AllAllowed(codec, i, ms)
    ensures AllAllowed(codec, i, ms + [Reads(B, n)])
  {
    assert (ms + [Reads(B, n)])[..|ms|] == ms;
    hide Run;
  }

  /**
   In every reachable state the sender's base is at most the peer's count, the queue is every
   submitted frame from the base on, and the count announced in a notice is still the count, so
   the resend start `n - txBase` is never clipped.
   */
  lemma PruneSound(codec: Codec, i: Setup, ms: seq<Move>)
    requires StreamingCodec(codec) && AllAllowed(codec, i, ms)
    ensures var w := Run(codec, i, ms);
            Pruned(w.a.bh, Submitted(ms, A), w.b.bh) && Pruned(w.b.bh, Submitted(ms, B), w.a.bh)
  {
    RunInv(codec, i, ms);
    var w := Run(codec, i, ms);
    hide Run, Fell, Joint, Listening, Pruned, Submitted, StreamingCodec;
    if Fell(w.a, w.subA, w.b, w.subB) {
      FellPruned(w.a, w.subA, w.b, w.subB);
    } else if Fell(w.b, w.subB, w.a, w.subA) {
      FellPruned(w.b, w.subB, w.a, w.subA);
    } else {
      var a0, b0, readA, readB :| Ideal(codec, w, a0, b0, readA, readB);
      PrunedSides(codec, w.a, a0, w.subA, readA, w.b, b0, w.subB, readB);
    }
  }

  lemma FellPruned(x: Station, subX: seq<Frame>, y: Station, subY: seq<Frame>)
    requires Fell(x, subX, y, subY)
    ensures Pruned(x.bh, subX, y.bh) && Pruned(y.bh, subY, x.bh)
  {
    hide Tapped, Pruned, Weight, Apc.Feed, AllClear;
  }

  lemma PrunedSides(codec: Codec, x: Station, x0: State, subX: seq<Frame>, readX: nat, y: Station, y0: State,
                    subY: seq<Frame>, readY: nat)
    requires Joint(codec, x0, subX, readX, y0, subY, readY)
    requires Listening(x, x0, y, subY, readX) && Listening(y, y0, x, subX, readY)
    ensures Pruned(x.bh, subX, y.bh) && Pruned(y.bh, subY, x.bh)
  {
    MatchedPhase(x, x0, y, subY, readX);
    MatchedPhase(y, y0, x, subX, readY);
    hide Joint, Listening;
    JointPruned(codec, x0, subX, readX, y0, subY, readY);
    hide FramesOf, UpRx;
  }

  /**
   Why pruning must not run while frames are held: with everything transmitted acknowledged, it would
   drop every held frame, and a peer that has none of them would be re-sent none of them.
   */
  lemma PruneWouldLoseHeld(codec: Codec, s: State, sub: seq<Frame>, n: nat)
    requires Books(codec, s, sub) && s.phase == Reverting
    requires s.txOff <= s.arq.SndUna() && n <= |s.chunks|
    ensures Prune(s).sent == [] && Tail(Prune(s), n) == []
  {
    PruneHeld(codec, s, s.chunks);
    hide Ends, Compressed, WrapEach;
  }

  lemma {:induction false} PruneHeld(codec: Codec, s: State, chunks: seq<seq<Byte>>)
    requires Ends(codec, chunks, s.txOff, s.sent, s.txBase)
    requires s.txOff == |Compressed(codec, chunks)| && s.txOff <= s.arq.SndUna()
    ensures Prune(s).sent == [] && Prune(s).txBase == s.txBase + |s.sent|
    decreases |s.sent|
  {
    hide Compressed;
    if s.sent != [] {
      if s.txBase < |chunks| { CompressedPrefix(codec, chunks, s.txBase + 1); }
      PruneHeld(codec, s.(sent := s.sent[1..], txBase := s.txBase + 1), chunks);
    }
  }

  /** The codec laws can be met: storing without compressing meets them. */
  lemma StoredCodecStreams() returns (codec: Codec)
    ensures StreamingCodec(codec)
  {
    codec := Codec((before: seq<seq<Byte>>, chunk: seq<Byte>) => chunk, (b: seq<Byte>) => b);
    forall chunks: seq<seq<Byte>>
      ensures codec.inflate(Compressed(codec, chunks)) == Concat(chunks)
    {
      StoredIsConcat(codec, chunks);
    }
  }

  lemma {:induction false} StoredIsConcat(codec: Codec, chunks: seq<seq<Byte>>)
    requires forall before: seq<seq<Byte>>, chunk: seq<Byte> :: codec.deflate(before, chunk) == chunk
    ensures Compressed(codec, chunks) == Concat(chunks)
  {
    if chunks != [] {
      var init := chunks[..|chunks| - 1];
      StoredIsConcat(codec, init);
      ConcatSnoc(init, chunks[|chunks| - 1]);
      assert init + [chunks[|chunks| - 1]] == chunks;
    }
  }
}
