/**
 Frames in envelopes among terminal bytes on one stream: what the scanner at the other end hears of
 them. A frame is heard whole exactly if it is safe and is put on the line in the clear, that is while
 the scanner is between sequences; any other is lost, or cut into shorter pieces.
 */
module ApcFrames {
  import opened Bytes
  import opened Apc
  import opened ApcLaws

  predicate AllSafe(fs: seq<seq<Byte>>) { forall i | 0 <= i < |fs| :: Safe(fs[i]) }

  function Envelopes(fs: seq<seq<Byte>>): seq<Byte> {
    if fs == [] then [] else Envelopes(fs[..|fs| - 1]) + Envelope(fs[|fs| - 1])
  }

  /** Neither escape nor bell: such bytes can end nothing. */
  predicate Quiet(s: seq<Byte>) { ESC !in s && BEL !in s }

  lemma QuietIsSafe(s: seq<Byte>)
    requires Quiet(s)
    ensures Safe(s)
  {
    forall i | 0 <= i < |s|
      ensures SafeAt(s, i)
    {
      assert s[i] in s && (i > 0 ==> s[i - 1] in s);
    }
  }

  // ----- How much is heard -----

  /** The bytes of the frames, and one more for each. */
  function Weight(fs: seq<seq<Byte>>): nat {
    if fs == [] then 0 else Weight(fs[..|fs| - 1]) + |fs[|fs| - 1]| + 1
  }

  lemma {:induction false} WeightAppend(a: seq<seq<Byte>>, b: seq<seq<Byte>>)
    ensures Weight(a + b) == Weight(a) + Weight(b)
    decreases |b|
  {
    if b == [] {
      assert a + b == a;
    } else {
      assert (a + b)[..|a + b| - 1] == a + b[..|b| - 1];
      WeightAppend(a, b[..|b| - 1]);
    }
  }

  lemma WeightOne(f: seq<Byte>)
    ensures Weight([f]) == |f| + 1 && Weight([]) == 0
  {
    assert [f][..0] == [];
  }

  lemma {:induction false} WeightOf(fs: seq<seq<Byte>>, f: seq<Byte>)
    requires f in fs
    ensures Weight(fs) >= |f| + 1
  {
    if f != fs[|fs| - 1] {
      assert f in fs[..|fs| - 1];
      WeightOf(fs[..|fs| - 1], f);
    }
  }

  /** Each frame costs its introducer, our prefix and a terminator. */
  lemma {:induction false} SpellingFits(ts: seq<Token>)
    ensures var events := Reading(ts).events; Weight(events) + 15 * |events| <= |Spelling(ts)|
  {
    if ts != [] {
      SpellingFits(ts[1..]);
      var first, rest := TokenOutput(ts[0]).events, Reading(ts[1..]).events;
      WeightAppend(first, rest);
      if ts[0].Ours? { WeightOne(ts[0].payload); }
    }
  }

  lemma EventsFit(data: seq<Byte>)
    ensures var events := Feed(IDLE, data).output.events; Weight(events) + 15 * |events| <= |data|
  {
    var ts := Conservation(data);
    SpellingFits(ts);
  }

  // ----- Inside a sequence that is not ours -----

  /** Whatever follows, the sequence being collected will not be one of ours. */
  ghost predicate Barred(s: Scan) {
    && (s.mode == InApc || s.mode == ApcEsc) && |s.buf| >= 3
    && exists i :: 0 <= i < |PREFIX| && i + 2 < |s.buf| && s.buf[i + 2] != PREFIX[i]
  }

  /** No sequence of ours is being collected. */
  predicate Foreign(s: Scan) {
    s.mode == InApc || s.mode == ApcEsc ==> |s.buf| >= 2 && !StartsWith(s.buf[2..], PREFIX)
  }

  lemma BarredGrows(s: Scan, t: Scan)
    requires Barred(s) && (t.mode == InApc || t.mode == ApcEsc) && s.buf <= t.buf
    ensures Barred(t)
  {
    var i :| 0 <= i < |PREFIX| && i + 2 < |s.buf| && s.buf[i + 2] != PREFIX[i];
    assert t.buf[i + 2] == s.buf[i + 2];
  }

  lemma BarredFinish(s: Scan, whole: seq<Byte>)
    requires Barred(s) && s.buf <= whole
    ensures Finish(whole).events == []
  {
    var i :| 0 <= i < |PREFIX| && i + 2 < |s.buf| && s.buf[i + 2] != PREFIX[i];
    var payload := PayloadOf(whole);
    assert whole[2..] == whole[2..|whole|];
    assert payload == whole[2..|payload| + 2];
    assert whole[i + 2] == s.buf[i + 2];
  }

  lemma {:induction false} BarredFits(s: Scan, data: seq<Byte>)
    requires Sane(s) && Barred(s)
    ensures var events := Feed(s, data).output.events; Weight(events) + 15 * |events| <= |data|
    decreases |data|
  {
    if data != [] {
      var b, next := data[0], NextState(s, data[0]);
      if next.mode == Ground {
        BarredFinish(s, s.buf + [b]);
        EventsFit(data[1..]);
        hide Finish;
        assert next == IDLE;
        assert [] + Feed(IDLE, data[1..]).output.events == Feed(IDLE, data[1..]).output.events;
      } else {
        BarredGrows(s, next);
        BarredFits(next, data[1..]);
        assert [] + Feed(next, data[1..]).output.events == Feed(next, data[1..]).output.events;
      }
    }
  }

  // ----- An envelope -----

  lemma FeedPair(s: Scan, b: Byte, c: Byte)
    requires Sane(s)
    ensures var next := NextState(s, b);
            Feed(s, [b, c]) == Fed(NextState(next, c), Join(Emit(s, b), Emit(next, c)))
  {
    FeedNothing(s);
    hide Feed, NextState, Emit;
    FeedSnoc(s, [], b);
    FeedSnoc(s, [b], c);
    assert [] + [b] == [b] && [b] + [c] == [b, c];
    JoinAssoc(Emit(s, b), NOTHING, NOTHING);
  }

  lemma EndsIdle(s: Scan)
    requires Sane(s)
    ensures Feed(s, [ESC, BACKSLASH]).scan == IDLE
  {
    FeedPair(s, ESC, BACKSLASH);
    hide Feed;
  }

  /** After an envelope the scanner is between sequences, wherever it was. */
  lemma EnvelopeEnds(s: Scan, f: seq<Byte>)
    requires Sane(s)
    ensures Feed(s, Envelope(f)).scan == IDLE
  {
    hide Feed;
    assert Envelope(f) == (OPENING + f) + [ESC, BACKSLASH];
    FeedInParts(s, OPENING + f, [ESC, BACKSLASH]);
    EndsIdle(Feed(s, OPENING + f).scan);
  }

  lemma {:induction false} FeedPlain(data: seq<Byte>)
    requires ESC !in data
    ensures Feed(IDLE, data) == Fed(IDLE, Output(data, []))
    decreases |data|
  {
    if data != [] {
      assert data[0] in data;
      FeedPlain(data[1..]);
      assert [data[0]] + data[1..] == data;
    }
  }

  lemma FeedTwo(s: Scan)
    requires Sane(s)
    ensures var r := Feed(s, [ESC, INTRO]);
            && (s.mode == Esc ==> r.scan == IDLE && r.output.events == [])
            && (s.mode == InApc || s.mode == ApcEsc ==>
                  r.scan == Scan(InApc, s.buf + [ESC, INTRO]) && r.output.events == [])
  {
    FeedPair(s, ESC, INTRO);
    hide Feed;
    assert s.buf + [ESC] + [INTRO] == s.buf + [ESC, INTRO];
  }

  lemma PrefixQuiet()
    ensures Quiet(PREFIX)
  {
    assert forall i | 0 <= i < |PREFIX| :: PREFIX[i] != ESC && PREFIX[i] != BEL;
  }

  /** A sequence not ours, and then an ESC: it never becomes one of ours. */
  lemma ForeignBarred(s: Scan, buf: seq<Byte>)
    requires Sane(s) && Foreign(s) && (s.mode == InApc || s.mode == ApcEsc) && s.buf + [ESC, INTRO] <= buf
    ensures Barred(Scan(InApc, buf))
  {
    PrefixQuiet();
    var k := |s.buf| - 2;
    assert buf[k + 2] == (s.buf + [ESC, INTRO])[k + 2] == ESC;
    if k < |PREFIX| {
      assert PREFIX[k] in PREFIX;
    } else {
      assert s.buf[2..][..|PREFIX|] != PREFIX;
      var i :| 0 <= i < |PREFIX| && s.buf[2..][..|PREFIX|][i] != PREFIX[i];
      assert buf[i + 2] == s.buf[i + 2];
    }
  }

  /** In the middle of something, an opening opens nothing of ours. */
  lemma OpeningMissed(s: Scan)
    requires Sane(s) && Foreign(s) && s.mode != Ground
    ensures var r := Feed(s, OPENING);
            r.output.events == [] && (r.scan == IDLE || (r.scan.mode == InApc && Barred(r.scan)))
  {
    FeedTwo(s);
    PrefixQuiet();
    FeedInParts(s, [ESC, INTRO], PREFIX);
    var mid := Feed(s, [ESC, INTRO]).scan;
    if s.mode == Esc {
      FeedPlain(PREFIX);
    } else {
      FeedInside(mid.buf, PREFIX);
      ForeignBarred(s, mid.buf + PREFIX);
    }
    hide Feed;
  }

  /** Put in the clear: safe, and between sequences. */
  predicate InClear(s: Scan, f: seq<Byte>) { s.mode == Ground && Safe(f) }

  lemma MissedWeighs(s: Scan, f: seq<Byte>)
    requires Sane(s) && Foreign(s) && s.mode != Ground
    ensures Weight(Feed(s, Envelope(f)).output.events) < |f| + 1
    ensures Quiet(f) ==> Feed(s, Envelope(f)).output.events == []
  {
    OpeningMissed(s);
    var tail := f + [ESC, BACKSLASH];
    assert Envelope(f) == OPENING + tail;
    FeedInParts(s, OPENING, tail);
    var r := Feed(s, OPENING);
    var events := Feed(r.scan, tail).output.events;
    if r.scan == IDLE { EventsFit(tail); } else { BarredFits(r.scan, tail); }
    assert [] + events == events;
    assert events != [] ==> |events| >= 1;
    if events == [] { WeightOne(f); }
    if Quiet(f) { QuietMissed(r.scan, f); }
    hide Feed, Barred;
  }

  lemma QuietMissed(s: Scan, f: seq<Byte>)
    requires Sane(s) && Quiet(f) && (s == IDLE || (s.mode == InApc && Barred(s)))
    ensures Feed(s, f + [ESC, BACKSLASH]).output.events == []
  {
    FeedInParts(s, f, [ESC, BACKSLASH]);
    if s == IDLE {
      FeedPlain(f);
      TerminatorAt(IDLE);
    } else {
      FeedInside(s.buf, f);
      BarredGrows(s, Scan(InApc, s.buf + f));
      TerminatorAt(Scan(InApc, s.buf + f));
    }
    hide Feed;
  }

  lemma TerminatorAt(s: Scan)
    requires Sane(s) && (s == IDLE || (s.mode == InApc && Barred(s)))
    ensures Feed(s, [ESC, BACKSLASH]).output.events == []
  {
    FeedPair(s, ESC, BACKSLASH);
    var next := NextState(s, ESC);
    hide Feed;
    if s != IDLE {
      BarredGrows(s, next);
      BarredFinish(next, next.buf + [BACKSLASH]);
    }
    hide Finish, Barred;
  }

  /** An unsafe frame's envelope yields a shorter piece of the frame first. */
  lemma UnsafeCut(f: seq<Byte>)
    requires !Safe(f)
    ensures var heard := Feed(IDLE, Envelope(f)).output.events; heard != [] && heard[0] < f && Weight(heard) < |f| + 1
  {
    FeedWithin(f);
    EventsFit(Envelope(f));
    assert Envelope(f) == (OPENING + f) + [ESC, BACKSLASH];
    assert |Envelope(f)| == |f| + 17;
    FirstFrameStays(OPENING + f, [ESC, BACKSLASH]);
    hide Feed, Within;
    var heard := Feed(IDLE, Envelope(f)).output.events;
    if |heard| == 1 {
      assert heard == [heard[0]];
      WeightOne(heard[0]);
    }
  }

  /**
   What is heard of an envelope while no sequence of ours is open: the frame and nothing else if it was
   put in the clear; otherwise less than the frame, and nothing at all of a quiet one put in the middle
   of something.
   */
  lemma EnvelopeHeard(s: Scan, f: seq<Byte>)
    requires Sane(s) && Foreign(s)
    ensures var r := Feed(s, Envelope(f));
            && r.scan == IDLE
            && (r.output.events == [f] <==> InClear(s, f))
            && (!InClear(s, f) ==> Weight(r.output.events) < Weight([f]) && f !in r.output.events)
            && (Quiet(f) && !InClear(s, f) ==> r.output.events == [])
  {
    EnvelopeEnds(s, f);
    WeightOne(f);
    if s.mode != Ground {
      MissedWeighs(s, f);
    } else if Safe(f) {
      EnvelopeRoundTrip(f);
    } else {
      UnsafeCut(f);
      if Quiet(f) { QuietIsSafe(f); }
    }
    hide Feed, Safe, Envelope;
    var events := Feed(s, Envelope(f)).output.events;
    if f in events { WeightOf(events, f); }
  }

  /** A key press that ends in an ESC, and then a frame: nothing is heard of any quiet frame. */
  lemma EscapeLoses(f: seq<Byte>)
    requires Quiet(f)
    ensures Feed(IDLE, [ESC] + Envelope(f)).output.events == []
  {
    assert [ESC][1..] == [];
    assert Feed(IDLE, [ESC]) == Fed(Scan(Esc, [ESC]), NOTHING);
    FeedInParts(IDLE, [ESC], Envelope(f));
    EnvelopeHeard(Scan(Esc, [ESC]), f);
    hide Feed;
  }

  lemma BelFed()
    ensures Feed(IDLE, OPENING + [BEL]) == Fed(IDLE, Output([], [[]]))
  {
    OpeningFed();
    PayloadClosed([], [BEL]);
    hide Feed, Finish;
    assert OPENING + [] == OPENING;
    FeedSnoc(IDLE, OPENING, BEL);
    hide OPENING;
    JoinAssoc(Emit(Within([]), BEL), NOTHING, NOTHING);
  }

  lemma EnvelopeParts(f: seq<Byte>)
    ensures Envelope(f) == (OPENING + f) + [ESC, BACKSLASH]
  {
  }

  /** The frame of a single BEL: it is heard empty, and its terminator is taken for terminal bytes. */
  lemma BelGarbled()
    ensures !Safe([BEL]) && Feed(IDLE, Envelope([BEL])) == Fed(IDLE, Output([ESC, BACKSLASH], [[]]))
  {
    assert !SafeAt([BEL], 0);
    BelFed();
    EnvelopeParts([BEL]);
    FeedPair(IDLE, ESC, BACKSLASH);
    hide Feed, Envelope, OPENING;
    FeedInParts(IDLE, OPENING + [BEL], [ESC, BACKSLASH]);
  }

  /** Keys typed in the middle of an envelope land inside the frame. */
  lemma KeysLandInside(f: seq<Byte>, p: nat, keys: seq<Byte>)
    requires p <= |f| && Quiet(f) && Quiet(keys) && keys != []
    ensures Feed(IDLE, (OPENING + f[..p]) + keys + (f[p..] + [ESC, BACKSLASH])).output.events
            == [f[..p] + keys + f[p..]]
    ensures f[..p] + keys + f[p..] != f
  {
    var g := f[..p] + keys + f[p..];
    assert |g| > |f|;
    assert (OPENING + f[..p]) + keys + (f[p..] + [ESC, BACKSLASH]) == Envelope(g);
    assert forall b | b in g :: b in f || b in keys;
    QuietIsSafe(g);
    EnvelopeRoundTrip(g);
  }

  // ----- A line -----

  /** How many frames from the first on were put in the clear. */
  function Led(clear: seq<bool>): (n: nat)
    ensures n <= |clear|
  {
    if clear == [] then 0
    else
      var n := Led(clear[..|clear| - 1]);
      if n == |clear| - 1 && clear[|clear| - 1] then |clear| else n
  }

  predicate AllClear(clear: seq<bool>) { forall i | 0 <= i < |clear| :: clear[i] }

  lemma {:induction false} LedAll(clear: seq<bool>)
    ensures AllClear(clear) <==> Led(clear) == |clear|
    ensures forall i | 0 <= i < Led(clear) :: clear[i]
    ensures Led(clear) < |clear| ==> !clear[Led(clear)]
  {
    if clear != [] { LedAll(clear[..|clear| - 1]); }
  }

  /** `heard` starts with the frames up to the first not put in the clear, and on the whole is less than all. */
  ghost predicate Gist(heard: seq<seq<Byte>>, fs: seq<seq<Byte>>, clear: seq<bool>) {
    && |clear| == |fs| && Led(clear) <= |heard| && heard[..Led(clear)] == fs[..Led(clear)]
    && (if Led(clear) == |fs| then heard == fs else Weight(heard) < Weight(fs))
  }

  lemma GistNext(heard: seq<seq<Byte>>, fs: seq<seq<Byte>>, clear: seq<bool>, more: seq<seq<Byte>>, f: seq<Byte>,
                 c: bool)
    requires Gist(heard, fs, clear) && (if c then more == [f] else Weight(more) < Weight([f]))
    ensures Gist(heard + more, fs + [f], clear + [c])
  {
    WeightAppend(heard, more);
    WeightAppend(fs, [f]);
    hide Weight;
    assert (clear + [c])[..|clear|] == clear;
    var n := Led(clear);
    assert (heard + more)[..n] == heard[..n] && (fs + [f])[..n] == fs[..n];
  }

  ghost predicate Carried(line: seq<Byte>, fs: seq<seq<Byte>>, clear: seq<bool>) {
    var r := Feed(IDLE, line);
    Foreign(r.scan) && Gist(r.output.events, fs, clear)
  }

  /** If the first frame was lost altogether, what is heard is heard of the others. */
  ghost predicate WithoutFirst(line: seq<Byte>, fs: seq<seq<Byte>>, clear: seq<bool>) {
    |clear| == |fs| && (fs != [] && !clear[0] ==> Gist(Feed(IDLE, line).output.events, fs[1..], clear[1..]))
  }

  /** Terminal bytes that complete no frame of ours and leave none open. */
  predicate Keys(line: seq<Byte>, bytes: seq<Byte>) {
    var r := Feed(Feed(IDLE, line).scan, bytes);
    r.output.events == [] && Foreign(r.scan)
  }

  function Clearly(line: seq<Byte>, f: seq<Byte>): bool { InClear(Feed(IDLE, line).scan, f) }

  /** Which of frames put on the line one after another are put in the clear. */
  function Clears(line: seq<Byte>, fs: seq<seq<Byte>>): (clear: seq<bool>)
    ensures |clear| == |fs|
  {
    if fs == [] then []
    else Clears(line, fs[..|fs| - 1]) + [Clearly(line + Envelopes(fs[..|fs| - 1]), fs[|fs| - 1])]
  }

  lemma NothingCarried()
    ensures Carried([], [], []) && WithoutFirst([], [], [])
  {
    FeedNothing(IDLE);
  }

  lemma KeysHeard(line: seq<Byte>, bytes: seq<Byte>)
    requires Keys(line, bytes)
    ensures var r := Feed(IDLE, line + bytes); Foreign(r.scan) && r.output.events == Feed(IDLE, line).output.events
  {
    hide Feed;
    FeedInParts(IDLE, line, bytes);
    var events := Feed(IDLE, line).output.events;
    assert events + [] == events;
  }

  lemma CarryTyped(line: seq<Byte>, fs: seq<seq<Byte>>, clear: seq<bool>, bytes: seq<Byte>)
    requires Carried(line, fs, clear) && Keys(line, bytes)
    ensures Carried(line + bytes, fs, clear)
    ensures WithoutFirst(line, fs, clear) ==> WithoutFirst(line + bytes, fs, clear)
  {
    hide Feed, Gist, Keys;
    KeysHeard(line, bytes);
  }

  lemma FrameHeard(line: seq<Byte>, f: seq<Byte>)
    requires Foreign(Feed(IDLE, line).scan)
    ensures var r, more := Feed(IDLE, line + Envelope(f)), Feed(Feed(IDLE, line).scan, Envelope(f)).output.events;
            && r.scan == IDLE && r.output.events == Feed(IDLE, line).output.events + more
            && (if Clearly(line, f) then more == [f] else Weight(more) < Weight([f]))
            && (Quiet(f) && !Clearly(line, f) ==> more == [])
  {
    hide Feed, Weight, Envelope, Safe;
    FeedInParts(IDLE, line, Envelope(f));
    EnvelopeHeard(Feed(IDLE, line).scan, f);
  }

  lemma CarryFrame(line: seq<Byte>, fs: seq<seq<Byte>>, clear: seq<bool>, f: seq<Byte>)
    requires Carried(line, fs, clear)
    ensures Carried(line + Envelope(f), fs + [f], clear + [Clearly(line, f)])
    ensures WithoutFirst(line, fs, clear) && (fs == [] ==> Quiet(f)) ==>
              WithoutFirst(line + Envelope(f), fs + [f], clear + [Clearly(line, f)])
  {
    hide Feed, Gist, Clearly, Envelope, Foreign, Weight;
    FrameHeard(line, f);
    var heard, c := Feed(IDLE, line).output.events, Clearly(line, f);
    var more := Feed(Feed(IDLE, line).scan, Envelope(f)).output.events;
    GistNext(heard, fs, clear, more, f, c);
    assert Foreign(IDLE) by { IdleForeign(); }
    if fs == [] {
      assert heard == [] && clear == [] by { NothingHeard(heard, clear); }
      assert (fs + [f])[1..] == [] && (clear + [c])[1..] == [] && [] + more == more;
      assert Gist([], [], []) by { NothingGist(); }
    } else if WithoutFirst(line, fs, clear) && !clear[0] {
      GistNext(heard, fs[1..], clear[1..], more, f, c);
      assert (fs + [f])[1..] == fs[1..] + [f] && (clear + [c])[1..] == clear[1..] + [c];
    }
  }

  lemma IdleForeign()
    ensures Foreign(IDLE)
  {
  }

  lemma NothingHeard(heard: seq<seq<Byte>>, clear: seq<bool>)
    requires Gist(heard, [], clear)
    ensures heard == [] && clear == []
  {
  }

  lemma NothingGist()
    ensures Gist([], [], [])
  {
  }

  lemma {:induction false} CarryFrames(line: seq<Byte>, fs: seq<seq<Byte>>, clear: seq<bool>, added: seq<seq<Byte>>)
    requires Carried(line, fs, clear)
    ensures Carried(line + Envelopes(added), fs + added, clear + Clears(line, added))
    ensures WithoutFirst(line, fs, clear) && (fs == [] && added != [] ==> Quiet(added[0])) ==>
              WithoutFirst(line + Envelopes(added), fs + added, clear + Clears(line, added))
    decreases |added|
  {
    hide Carried, WithoutFirst, Envelope, Clearly, Quiet;
    if added == [] {
      assert line + [] == line && fs + [] == fs && clear + [] == clear;
    } else {
      var init, f := added[..|added| - 1], added[|added| - 1];
      CarryFrames(line, fs, clear, init);
      CarryFrame(line + Envelopes(init), fs + init, clear + Clears(line, init), f);
      assert line + Envelopes(added) == (line + Envelopes(init)) + Envelope(f);
      assert fs + added == (fs + init) + [f];
      var c := Clearly(line + Envelopes(init), f);
      assert clear + Clears(line, added) == (clear + Clears(line, init)) + [c];
      assert fs + init == [] ==> added == [f];
    }
  }

  lemma AllNext(clear: seq<bool>, c: bool, fs: seq<seq<Byte>>, f: seq<Byte>)
    ensures AllClear(clear + [c]) <==> AllClear(clear) && c
    ensures AllSafe(fs + [f]) <==> AllSafe(fs) && Safe(f)
  {
    hide Safe;
    var clear', fs' := clear + [c], fs + [f];
    assert clear'[|clear|] == c && fs'[|fs|] == f;
    assert forall i | 0 <= i < |clear| :: clear'[i] == clear[i];
    assert forall i | 0 <= i < |fs| :: fs'[i] == fs[i];
  }

  lemma {:induction false} LineIdle(line: seq<Byte>, fs: seq<seq<Byte>>)
    requires Feed(IDLE, line).scan == IDLE
    ensures Feed(IDLE, line + Envelopes(fs)).scan == IDLE
  {
    hide Feed, Envelope;
    if fs == [] {
      assert line + [] == line;
    } else {
      var init, f := fs[..|fs| - 1], fs[|fs| - 1];
      LineIdle(line, init);
      FeedInParts(IDLE, line + Envelopes(init), Envelope(f));
      EnvelopeEnds(IDLE, f);
      assert line + Envelopes(fs) == (line + Envelopes(init)) + Envelope(f);
    }
  }

  /** Frames sent back to back from between sequences: in the clear exactly if safe. */
  lemma {:induction false} ClearsOfSafe(line: seq<Byte>, fs: seq<seq<Byte>>)
    requires Feed(IDLE, line).scan == IDLE
    ensures AllClear(Clears(line, fs)) <==> AllSafe(fs)
  {
    if fs != [] {
      hide Feed, Safe, Envelopes, AllClear, AllSafe;
      var init, f := fs[..|fs| - 1], fs[|fs| - 1];
      ClearsOfSafe(line, init);
      LineIdle(line, init);
      assert init + [f] == fs;
      AllNext(Clears(line, init), Clearly(line + Envelopes(init), f), init, f);
    }
  }

  /** Frames sent back to back are all heard, as they were sent, if and only if all are safe. */
  lemma FramesCross(fs: seq<seq<Byte>>)
    ensures Feed(IDLE, Envelopes(fs)).output.events == fs <==> AllSafe(fs)
  {
    NothingCarried();
    FeedNothing(IDLE);
    CarryFrames([], [], [], fs);
    ClearsOfSafe([], fs);
    hide Feed, Safe, Envelopes, Clears;
    assert [] + Envelopes(fs) == Envelopes(fs) && [] + fs == fs && [] + Clears([], fs) == Clears([], fs);
    LedAll(Clears([], fs));
  }

  // ----- A line made of frames and keystrokes -----

  datatype Piece = Enveloped(frame: seq<Byte>) | Typed(bytes: seq<Byte>)

  function Line(ps: seq<Piece>): seq<Byte> {
    if ps == [] then []
    else
      var p := ps[|ps| - 1];
      Line(ps[..|ps| - 1]) + if p.Enveloped? then Envelope(p.frame) else p.bytes
  }

  function FramesIn(ps: seq<Piece>): seq<seq<Byte>> {
    if ps == [] then []
    else FramesIn(ps[..|ps| - 1]) + if ps[|ps| - 1].Enveloped? then [ps[|ps| - 1].frame] else []
  }

  /** Which of its frames were put in the clear. */
  function Marks(ps: seq<Piece>): (clear: seq<bool>)
    ensures |clear| == |FramesIn(ps)|
  {
    if ps == [] then []
    else
      var init, p := ps[..|ps| - 1], ps[|ps| - 1];
      Marks(init) + if p.Enveloped? then [Clearly(Line(init), p.frame)] else []
  }

  /** Nothing typed spells or opens a frame of ours. */
  predicate Typing(ps: seq<Piece>) {
    ps == [] || (Typing(ps[..|ps| - 1]) && (ps[|ps| - 1].Typed? ==> Keys(Line(ps[..|ps| - 1]), ps[|ps| - 1].bytes)))
  }

  lemma {:induction false} LineCarried(ps: seq<Piece>)
    requires Typing(ps)
    ensures Carried(Line(ps), FramesIn(ps), Marks(ps))
  {
    hide Carried, Keys, Clearly, Envelope;
    if ps == [] {
      NothingCarried();
    } else {
      var init, p := ps[..|ps| - 1], ps[|ps| - 1];
      LineCarried(init);
      match p
      case Enveloped(f) => CarryFrame(Line(init), FramesIn(init), Marks(init), f);
      case Typed(bytes) =>
        CarryTyped(Line(init), FramesIn(init), Marks(init), bytes);
        assert FramesIn(init) + [] == FramesIn(init) && Marks(init) + [] == Marks(init);
    }
  }

  /**
   Exactly what a line carries: whatever is typed between them, as long as it spells and opens no frame,
   the frames are all heard, as they were put, if and only if each was put in the clear.
   */
  lemma HeardExactly(ps: seq<Piece>)
    requires Typing(ps)
    ensures Feed(IDLE, Line(ps)).output.events == FramesIn(ps) <==> AllClear(Marks(ps))
  {
    LineCarried(ps);
    LedAll(Marks(ps));
    hide Feed, Line, Foreign;
  }

  /** Each frame was put on the line while the scanner was between sequences. */
  predicate Grounded(ps: seq<Piece>) {
    || ps == []
    || (&& Grounded(ps[..|ps| - 1])
        && (ps[|ps| - 1].Enveloped? ==> Feed(IDLE, Line(ps[..|ps| - 1])).scan.mode == Ground))
  }

  lemma {:induction false} GroundedClear(ps: seq<Piece>)
    ensures AllClear(Marks(ps)) <==> Grounded(ps) && AllSafe(FramesIn(ps))
  {
    if ps != [] {
      var init, p := ps[..|ps| - 1], ps[|ps| - 1];
      GroundedClear(init);
      hide Feed, Safe, Line, AllClear, AllSafe;
      match p
      case Enveloped(f) => AllNext(Marks(init), Clearly(Line(init), f), FramesIn(init), f);
      case Typed(_) => assert FramesIn(init) + [] == FramesIn(init) && Marks(init) + [] == Marks(init);
    }
  }

  /** Terminal bytes that end where they began, between sequences. */
  predicate Stripped(ps: seq<Piece>) {
    forall i | 0 <= i < |ps| && ps[i].Typed? :: Feed(IDLE, ps[i].bytes) == Fed(IDLE, Output(ps[i].bytes, []))
  }

  /** Among such bytes, which is what a mux forwards of its child, safe frames are put in the clear. */
  lemma {:induction false} StrippedClear(ps: seq<Piece>)
    requires Stripped(ps)
    ensures Typing(ps) && Feed(IDLE, Line(ps)).scan == IDLE
    ensures AllClear(Marks(ps)) <==> AllSafe(FramesIn(ps))
  {
    if ps != [] {
      var init, p := ps[..|ps| - 1], ps[|ps| - 1];
      assert forall i | 0 <= i < |init| :: init[i] == ps[i];
      StrippedClear(init);
      hide Feed, Safe, Envelope, AllClear, AllSafe;
      match p
      case Enveloped(f) =>
        AllNext(Marks(init), Clearly(Line(init), f), FramesIn(init), f);
        FeedInParts(IDLE, Line(init), Envelope(f));
        EnvelopeEnds(IDLE, f);
      case Typed(bytes) =>
        FeedInParts(IDLE, Line(init), bytes);
        IdleForeign();
        assert FramesIn(init) + [] == FramesIn(init) && Marks(init) + [] == Marks(init);
    }
  }
}
