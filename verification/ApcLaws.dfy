/**
 What the in-band scanner keeps: chunking is irrelevant, no byte is lost, filtering twice is filtering
 once, and exactly the safe payloads survive an envelope.
 */
module ApcLaws {
  import opened Bytes
  import opened Apc

  /** The output of feeding chunks one after another. */
  function FeedChunks(s: Scan, chunks: seq<seq<Byte>>): Fed
    requires Sane(s)
    decreases |chunks|
  {
    if chunks == [] then Fed(s, NOTHING)
    else
      var r := Feed(s, chunks[0]);
      var q := FeedChunks(r.scan, chunks[1..]);
      Fed(q.scan, Join(r.output, q.output))
  }

  lemma {:induction false} ChunkingIrrelevant(s: Scan, chunks: seq<seq<Byte>>)
    requires Sane(s)
    ensures FeedChunks(s, chunks) == Feed(s, Concat(chunks))
    decreases |chunks|
  {
    hide Feed;
    if chunks == [] {
      assert Feed(s, []) == Fed(s, NOTHING) by { FeedNothing(s); }
    } else {
      ChunkingIrrelevant(Feed(s, chunks[0]).scan, chunks[1..]);
      FeedInParts(s, chunks[0], Concat(chunks[1..]));
    }
  }

  lemma FeedNothing(s: Scan)
    requires Sane(s)
    ensures Feed(s, []) == Fed(s, NOTHING)
  {
  }

  // ----- Conservation: every input byte is forwarded, removed in a frame of ours, or still buffered -----

  datatype Token = Plain(bytes: seq<Byte>) | Ours(payload: seq<Byte>, bel: bool)

  function Spelled(t: Token): seq<Byte> {
    match t
    case Plain(b) => b
    case Ours(payload, bel) => if bel then [ESC, INTRO] + PREFIX + payload + [BEL] else Envelope(payload)
  }

  function TokenOutput(t: Token): Output {
    match t
    case Plain(b) => Output(b, [])
    case Ours(payload, _) => Output([], [payload])
  }

  function Spelling(ts: seq<Token>): seq<Byte> {
    if ts == [] then [] else Spelled(ts[0]) + Spelling(ts[1..])
  }

  function Reading(ts: seq<Token>): Output {
    if ts == [] then NOTHING else Join(TokenOutput(ts[0]), Reading(ts[1..]))
  }

  /** The candidate buffer starts with the introducer whenever it is inside a sequence. */
  predicate Opened(s: Scan) {
    Sane(s) && (s.mode == InApc || s.mode == ApcEsc ==> s.buf[0] == ESC && s.buf[1] == INTRO)
    && (s.mode == ApcEsc ==> s.buf[|s.buf| - 1] == ESC)
  }

  /** `ESC _`, a payload and the terminator it was finished by. */
  predicate Terminated(whole: seq<Byte>, bel: bool) {
    && |whole| >= 3 && whole[0] == ESC && whole[1] == INTRO
    && if bel then whole[|whole| - 1] == BEL
       else |whole| >= 4 && whole[|whole| - 2] == ESC && whole[|whole| - 1] == BACKSLASH
  }

  function Terminator(bel: bool): seq<Byte> { if bel then [BEL] else [ESC, BACKSLASH] }

  lemma TerminatedParts(whole: seq<Byte>, bel: bool)
    requires Terminated(whole, bel)
    ensures whole == [ESC, INTRO] + PayloadOf(whole) + Terminator(bel)
  {
    var n := |whole| - |Terminator(bel)|;
    var last := whole[|whole| - 2..];
    assert last[1] == whole[|whole| - 1];
    if bel {
      assert PayloadOf(whole) == whole[2..n];
    } else {
      assert last == [ESC, BACKSLASH];
      assert PayloadOf(whole) == whole[2..n];
    }
    hide PayloadOf;
    ThreeParts(whole, 2, n);
    assert whole[..2] == [ESC, INTRO] && whole[n..] == Terminator(bel);
  }

  /** A finished sequence is one token: a frame of ours or, byte for byte, a foreign one. */
  lemma FinishToken(whole: seq<Byte>, bel: bool) returns (t: Token)
    requires Terminated(whole, bel)
    ensures Spelled(t) == whole && TokenOutput(t) == Finish(whole)
  {
    TerminatedParts(whole, bel);
    hide PayloadOf, Terminated;
    var payload := PayloadOf(whole);
    if StartsWith(payload, PREFIX) {
      t := Ours(payload[|PREFIX|..], bel);
      OursSpelled(payload, bel);
    } else {
      t := Plain(whole);
    }
  }

  lemma OursSpelled(payload: seq<Byte>, bel: bool)
    requires StartsWith(payload, PREFIX)
    ensures Spelled(Ours(payload[|PREFIX|..], bel)) == [ESC, INTRO] + payload + Terminator(bel)
  {
    var rest := payload[|PREFIX|..];
    assert payload == PREFIX + rest;
    assert [ESC, INTRO] + PREFIX + rest == [ESC, INTRO] + (PREFIX + rest);
  }

  lemma ThreeParts(s: seq<Byte>, i: nat, j: nat)
    requires i <= j <= |s|
    ensures s == s[..i] + s[i..j] + s[j..]
  {
  }

  lemma OneToken(t: Token)
    ensures Spelling([t]) == Spelled(t) && Reading([t]) == TokenOutput(t)
  {
    assert [t][1..] == [];
    JoinAssoc(TokenOutput(t), NOTHING, NOTHING);
  }

  /** The token, if any, that byte `b` completes. */
  lemma TokenAt(s: Scan, b: Byte) returns (ts: seq<Token>)
    requires Opened(s)
    ensures Opened(NextState(s, b))
    ensures s.buf + [b] == Spelling(ts) + NextState(s, b).buf && Emit(s, b) == Reading(ts)
  {
    var whole := s.buf + [b];
    hide Finish, PayloadOf;
    if NextState(s, b).mode != Ground {
      ts := [];
    } else {
      var t;
      if s.mode == InApc || s.mode == ApcEsc {
        t := FinishToken(whole, s.mode == InApc);
      } else {
        t := Plain(whole);
      }
      OneToken(t);
      ts := [t];
      hide Spelling, Reading, Spelled, TokenOutput;
    }
  }

  lemma {:induction false} SpellingAppend(a: seq<Token>, b: seq<Token>)
    ensures Spelling(a + b) == Spelling(a) + Spelling(b) && Reading(a + b) == Join(Reading(a), Reading(b))
  {
    hide Spelled, TokenOutput;
    if a == [] {
      assert a + b == b;
      JoinAssoc(Reading(b), NOTHING, NOTHING);
    } else {
      assert (a + b)[1..] == a[1..] + b;
      SpellingAppend(a[1..], b);
      JoinAssoc(TokenOutput(a[0]), Reading(a[1..]), Reading(b));
    }
  }

  /**
   Nothing is lost, altered or reordered: the input is a sequence of tokens followed by the bytes
   still buffered; the plain tokens are what is forwarded and our frames' payloads the events.
   */
  lemma {:induction false} Conservation(data: seq<Byte>) returns (ts: seq<Token>)
    ensures var r := Feed(IDLE, data);
            data == Spelling(ts) + r.scan.buf && r.output == Reading(ts) && Opened(r.scan)
    decreases |data|
  {
    if data == [] {
      ts := [];
    } else {
      hide Spelling, Reading, Feed, Emit, NextState, Opened;
      var init, b := data[..|data| - 1], data[|data| - 1];
      var before := Conservation(init);
      var r := Feed(IDLE, init);
      assert init + [b] == data;
      FeedSnoc(IDLE, init, b);
      var last := TokenAt(r.scan, b);
      SpellingAppend(before, last);
      ts := before + last;
      Reassoc(Spelling(before), r.scan.buf, [b], Spelling(last), NextState(r.scan, b).buf);
    }
  }

  lemma Reassoc(x: seq<Byte>, y: seq<Byte>, z: seq<Byte>, u: seq<Byte>, v: seq<Byte>)
    requires y + z == u + v
    ensures (x + y) + z == (x + u) + v
  {
    assert (x + y) + z == x + (y + z);
    assert (x + u) + v == x + (u + v);
  }

  // ----- Idempotence -----

  /** The buffer alone would bring an idle scanner to this state, with no output yet. */
  ghost predicate Replayable(s: Scan) { Sane(s) && Feed(IDLE, s.buf) == Fed(s, NOTHING) }

  /** Bytes that an idle scanner forwards as they are, ending idle. */
  ghost predicate Complete(b: seq<Byte>) { Feed(IDLE, b) == Fed(IDLE, Output(b, [])) }

  lemma ReplayStep(s: Scan, b: Byte)
    requires Replayable(s)
    ensures Replayable(NextState(s, b)) && Complete(Emit(s, b).out)
  {
    FeedSnoc(IDLE, s.buf, b);
    JoinAssoc(Emit(s, b), NOTHING, NOTHING);
    FeedNothing(IDLE);
    assert NextState(s, b).buf == s.buf + [b] || NextState(s, b) == IDLE;
    assert Emit(s, b).out == s.buf + [b] || Emit(s, b).out == [];
  }

  lemma CompleteAppend(a: seq<Byte>, b: seq<Byte>)
    requires Complete(a) && Complete(b)
    ensures Complete(a + b)
  {
    hide Feed;
    FeedInParts(IDLE, a, b);
  }

  /** Whatever is forwarded from any reachable state is complete: it ends at a token boundary. */
  lemma {:induction false} ForwardedIsComplete(s: Scan, data: seq<Byte>)
    requires Replayable(s)
    ensures Replayable(Feed(s, data).scan) && Complete(Feed(s, data).output.out)
    decreases |data|
  {
    if data == [] {
      FeedNothing(IDLE);
    } else {
      ReplayStep(s, data[0]);
      ForwardedIsComplete(NextState(s, data[0]), data[1..]);
      CompleteAppend(Emit(s, data[0]).out, Feed(NextState(s, data[0]), data[1..]).output.out);
    }
  }

  /** Filtering what was forwarded changes nothing and finds no frame. */
  lemma StripIdempotent(data: seq<Byte>)
    ensures var out := Feed(IDLE, data).output.out; Feed(IDLE, out) == Fed(IDLE, Output(out, []))
  {
    FeedNothing(IDLE);
    ForwardedIsComplete(IDLE, data);
  }

  // ----- The envelope -----

  /** No `ESC \` pair, and no BEL except directly after an ESC. */
  predicate SafeAt(p: seq<Byte>, i: nat)
    requires i < |p|
  {
    (p[i] == BACKSLASH ==> i == 0 || p[i - 1] != ESC) && (p[i] == BEL ==> i > 0 && p[i - 1] == ESC)
  }

  predicate Safe(p: seq<Byte>) {
    forall i | 0 <= i < |p| :: SafeAt(p, i)
  }

  const OPENING: seq<Byte> := [ESC, INTRO] + PREFIX

  function Within(p: seq<Byte>): Scan {
    Scan(if p != [] && p[|p| - 1] == ESC then ApcEsc else InApc, OPENING + p)
  }

  /** Bytes that can end nothing are just buffered. */
  lemma {:induction false} FeedInside(buf: seq<Byte>, more: seq<Byte>)
    requires |buf| >= 2 && ESC !in more && BEL !in more
    ensures Feed(Scan(InApc, buf), more) == Fed(Scan(InApc, buf + more), NOTHING)
    decreases |more|
  {
    if more == [] {
      assert buf + more == buf;
    } else {
      var b := more[0];
      assert b in more;
      FeedInside(buf + [b], more[1..]);
      assert buf + [b] + more[1..] == buf + more;
    }
  }

  lemma OpenedWith(p: seq<Byte>)
    requires ESC !in p && BEL !in p
    ensures var start := [ESC, INTRO] + p;
            Feed(IDLE, start) == Fed(Scan(InApc, start), NOTHING)
  {
    FeedInside([ESC, INTRO], p);
    var start, esc := [ESC, INTRO] + p, Scan(Esc, [ESC]);
    assert start[1..] == [INTRO] + p && ([INTRO] + p)[1..] == p && [ESC] + [INTRO] == [ESC, INTRO];
    assert Feed(esc, [INTRO] + p) == Feed(Scan(InApc, [ESC, INTRO]), p);
  }

  lemma OpeningFed()
    ensures Feed(IDLE, OPENING) == Fed(Within([]), NOTHING)
  {
    hide Feed;
    OpenedWith(PREFIX);
    assert OPENING + [] == OPENING;
  }

  lemma PayloadClosed(p: seq<Byte>, term: seq<Byte>)
    requires term == [BEL] || term == [ESC, BACKSLASH]
    ensures Finish(OPENING + p + term) == Output([], [p])
  {
    var whole := OPENING + p + term;
    assert whole[|whole| - |term|..] == term && whole[|whole| - 1] == term[|term| - 1];
    assert term == [BEL] ==> whole[|whole| - 2..][1] == BEL;
    assert whole[2..|whole| - |term|] == PREFIX + p;
    assert PayloadOf(whole) == PREFIX + p;
    assert (PREFIX + p)[|PREFIX|..] == p;
  }

  /** After the opening and `p`: still inside while `p` is safe, else a shorter piece of it has come out. */
  lemma {:induction false} FeedWithin(p: seq<Byte>)
    ensures var r := Feed(IDLE, OPENING + p);
            if Safe(p) then r == Fed(Within(p), NOTHING)
            else r.output.events != [] && r.output.events[0] < p
    decreases |p|
  {
    if p == [] {
      OpeningFed();
      assert OPENING + p == OPENING;
    } else {
      var init, b := p[..|p| - 1], p[|p| - 1];
      assert p == init + [b] && OPENING + p == (OPENING + init) + [b];
      FeedWithin(init);
      FeedSnoc(IDLE, OPENING + init, b);
      SafeSnoc(init, b);
      if Safe(init) {
        WithinStep(init, b);
        JoinAssoc(NOTHING, Emit(Within(init), b), NOTHING);
      } else {
        var r := Feed(IDLE, OPENING + init);
        assert Feed(IDLE, OPENING + p).output.events[0] == r.output.events[0];
      }
    }
  }

  predicate Ends(init: seq<Byte>, b: Byte) {
    var afterEsc := init != [] && init[|init| - 1] == ESC;
    if afterEsc then b == BACKSLASH else b == BEL
  }

  lemma SafeSnoc(init: seq<Byte>, b: Byte)
    ensures Safe(init + [b]) <==> Safe(init) && !Ends(init, b)
  {
    var p := init + [b];
    forall i | 0 <= i < |init|
      ensures SafeAt(init, i) == SafeAt(p, i)
    {
    }
    assert SafeAt(p, |init|) == !Ends(init, b);
    assert Safe(p) ==> forall i | 0 <= i < |init| :: SafeAt(p, i);
  }

  lemma WithinStep(init: seq<Byte>, b: Byte)
    ensures if Ends(init, b)
            then exists q :: Emit(Within(init), b) == Output([], [q]) && q <= init
            else NextState(Within(init), b) == Within(init + [b]) && Emit(Within(init), b) == NOTHING
  {
    assert (OPENING + init) + [b] == OPENING + (init + [b]);
    if Ends(init, b) {
      if b == BEL {
        PayloadClosed(init, [BEL]);
      } else {
        var q := init[..|init| - 1];
        assert (OPENING + init) + [b] == OPENING + q + [ESC, BACKSLASH];
        PayloadClosed(q, [ESC, BACKSLASH]);
      }
    }
  }

  /** The terminator, fed after a buffer it completes. */
  lemma CloseAt(s: Scan, p: seq<Byte>)
    requires s.mode == InApc || s.mode == ApcEsc
    requires Sane(s) && Finish(s.buf + [ESC, BACKSLASH]) == Output([], [p])
    ensures var s' := NextState(s, ESC);
            && Emit(s, ESC) == NOTHING && NextState(s', BACKSLASH) == IDLE && Emit(s', BACKSLASH) == Output([], [p])
  {
    hide Finish;
    assert (s.buf + [ESC]) + [BACKSLASH] == s.buf + [ESC, BACKSLASH];
  }

  lemma CloseWithin(p: seq<Byte>)
    requires Feed(IDLE, OPENING + p) == Fed(Within(p), NOTHING)
    ensures Feed(IDLE, Envelope(p)) == Fed(IDLE, Output([], [p]))
  {
    hide Feed, Finish;
    assert Envelope(p) == ((OPENING + p) + [ESC]) + [BACKSLASH];
    FeedSnoc(IDLE, OPENING + p, ESC);
    FeedSnoc(IDLE, (OPENING + p) + [ESC], BACKSLASH);
    PayloadClosed(p, [ESC, BACKSLASH]);
    CloseAt(Within(p), p);
  }

  /** Output only grows: a first frame once out stays the first. */
  lemma FirstFrameStays(a: seq<Byte>, b: seq<Byte>)
    requires Feed(IDLE, a).output.events != []
    ensures Feed(IDLE, a + b).output.events != []
            && Feed(IDLE, a + b).output.events[0] == Feed(IDLE, a).output.events[0]
  {
    FeedInParts(IDLE, a, b);
    hide Feed;
  }

  /**
   The envelope round trip, exactly: the scanner gives back `p`, once, with nothing forwarded, if
   and only if `p` is safe.
   */
  lemma EnvelopeRoundTrip(p: seq<Byte>)
    ensures Feed(IDLE, Envelope(p)) == Fed(IDLE, Output([], [p])) <==> Safe(p)
  {
    FeedWithin(p);
    hide Feed, Within;
    if Safe(p) {
      CloseWithin(p);
    } else {
      assert Envelope(p) == (OPENING + p) + [ESC, BACKSLASH];
      FirstFrameStays(OPENING + p, [ESC, BACKSLASH]);
    }
  }
}
