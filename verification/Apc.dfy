/**
 The in-band scanner: terminal bytes and protocol frames share one byte stream, and a frame is an
 APC escape sequence with our prefix, `ESC _ shell-bucket:<payload> ESC \`.

 `NextState` and `Emit` are the per-byte state machine; the class runs it over chunks in place.
 */
module Apc {
  import opened Bytes

  const ESC: Byte := 0x1B
  const INTRO: Byte := 0x5F
  const BACKSLASH: Byte := 0x5C
  const BEL: Byte := 0x07

  /** "shell-bucket:" */
  const PREFIX: seq<Byte> := [115, 104, 101, 108, 108, 45, 98, 117, 99, 107, 101, 116, 58]

  datatype Mode = Ground | Esc | InApc | ApcEsc

  /** A scanner between bytes: its mode and the bytes of the candidate sequence so far. */
  datatype Scan = Scan(mode: Mode, buf: seq<Byte>)

  /** What one byte, or many, added to the two outputs. */
  datatype Output = Output(out: seq<Byte>, events: seq<seq<Byte>>)

  const IDLE: Scan := Scan(Ground, [])
  const NOTHING: Output := Output([], [])

  function Join(x: Output, y: Output): Output { Output(x.out + y.out, x.events + y.events) }

  function Envelope(payload: seq<Byte>): seq<Byte> {
    [ESC, INTRO] + PREFIX + payload + [ESC, BACKSLASH]
  }

  /** The payload between the two introducer bytes and the terminator. */
  function PayloadOf(buf: seq<Byte>): seq<Byte>
    requires |buf| >= 2
  {
    if |buf| >= 4 && buf[|buf| - 2..] == [ESC, BACKSLASH] then buf[2..|buf| - 2]
    else if |buf| >= 3 && buf[|buf| - 1] == BEL then buf[2..|buf| - 1]
    else buf[2..]
  }

  function Finish(buf: seq<Byte>): Output
    requires |buf| >= 2
  {
    var payload := PayloadOf(buf);
    if StartsWith(payload, PREFIX) then Output([], [payload[|PREFIX|..]]) else Output(buf, [])
  }

  /** The buffer belongs to the mode: empty in ground, one ESC after ESC, `ESC _ ...` inside. */
  predicate Sane(s: Scan) {
    match s.mode
    case Ground => s.buf == []
    case Esc => s.buf == [ESC]
    case InApc => |s.buf| >= 2
    case ApcEsc => |s.buf| >= 3
  }

  function NextState(s: Scan, b: Byte): (s': Scan)
    ensures Sane(s) ==> Sane(s')
  {
    match s.mode
    case Ground => if b == ESC then Scan(Esc, [ESC]) else IDLE
    case Esc => if b == INTRO then Scan(InApc, s.buf + [b]) else IDLE
    case InApc =>
      if b == BEL then IDLE else if b == ESC then Scan(ApcEsc, s.buf + [b]) else Scan(InApc, s.buf + [b])
    case ApcEsc =>
      if b == BACKSLASH then IDLE else if b == ESC then Scan(ApcEsc, s.buf + [b]) else Scan(InApc, s.buf + [b])
  }

  function Emit(s: Scan, b: Byte): Output
    requires Sane(s)
  {
    match s.mode
    case Ground => if b == ESC then NOTHING else Output([b], [])
    case Esc => if b == INTRO then NOTHING else Output(s.buf + [b], [])
    case InApc => if b == BEL then Finish(s.buf + [b]) else NOTHING
    case ApcEsc => if b == BACKSLASH then Finish(s.buf + [b]) else NOTHING
  }

  datatype Fed = Fed(scan: Scan, output: Output)

  /** Feed `data` to a scanner in state `s`. */
  function Feed(s: Scan, data: seq<Byte>): (r: Fed)
    requires Sane(s)
    ensures Sane(r.scan)
    decreases |data|
  {
    if data == [] then Fed(s, NOTHING)
    else
      var r := Feed(NextState(s, data[0]), data[1..]);
      Fed(r.scan, Join(Emit(s, data[0]), r.output))
  }

  class Filter {
    var mode: Mode
    var buf: seq<Byte>

    ghost function View(): Scan
      reads this
    {
      Scan(mode, buf)
    }

    constructor ()
      ensures View() == IDLE
    {
      mode, buf := Ground, [];
    }

    method FinishSeq() returns (o: Output)
      requires |buf| >= 2
      modifies this
      ensures o == Finish(old(buf)) && View() == IDLE
    {
      var end := |buf|;
      if |buf| >= 4 && buf[|buf| - 2] == ESC && buf[|buf| - 1] == BACKSLASH {
        end := |buf| - 2;
      } else if |buf| >= 3 && buf[|buf| - 1] == BEL {
        end := |buf| - 1;
      }
      var payload := buf[2..end];
      assert payload == PayloadOf(buf);
      if StartsWith(payload, PREFIX) {
        o := Output([], [payload[|PREFIX|..]]);
      } else {
        o := Output(buf, []);
      }
      buf := [];
      mode := Ground;
    }

    method StepByte(b: Byte) returns (o: Output)
      requires Sane(View())
      modifies this
      ensures o == Emit(old(View()), b) && View() == NextState(old(View()), b)
    {
      o := NOTHING;
      match mode
      case Ground =>
        if b == ESC {
          mode, buf := Esc, [ESC];
        } else {
          o := Output([b], []);
        }
      case Esc =>
        if b == INTRO {
          mode, buf := InApc, buf + [b];
        } else {
          o := Output(buf + [b], []);
          mode, buf := Ground, [];
        }
      case InApc =>
        buf := buf + [b];
        if b == BEL { o := FinishSeq(); } else if b == ESC { mode := ApcEsc; }
      case ApcEsc =>
        buf := buf + [b];
        if b == BACKSLASH { o := FinishSeq(); } else if b != ESC { mode := InApc; }
    }

    method FeedChunk(chunk: seq<Byte>) returns (o: Output)
      requires Sane(View())
      modifies this
      ensures Fed(View(), o) == Feed(old(View()), chunk)
    {
      o := NOTHING;
      assert chunk[0..] == chunk;
      for i := 0 to |chunk|
        invariant Sane(View())
        invariant Fed(View(), o) == Feed(old(View()), chunk[..i])
      {
        var more := StepByte(chunk[i]);
        FeedSnoc(old(View()), chunk[..i], chunk[i]);
        assert chunk[..i + 1] == chunk[..i] + [chunk[i]];
        o := Output(o.out + more.out, o.events + more.events);
      }
      assert chunk[..|chunk|] == chunk;
    }
  }

  // ----- Chunking does not matter -----

  lemma JoinAssoc(x: Output, y: Output, z: Output)
    ensures Join(Join(x, y), z) == Join(x, Join(y, z))
    ensures Join(x, NOTHING) == x && Join(NOTHING, x) == x
  {
    assert (x.out + y.out) + z.out == x.out + (y.out + z.out);
    assert (x.events + y.events) + z.events == x.events + (y.events + z.events);
  }

  /** Feeding a stream in two parts, split anywhere, is feeding it whole. */
  lemma {:induction false} FeedInParts(s: Scan, a: seq<Byte>, b: seq<Byte>)
    requires Sane(s)
    ensures var r := Feed(s, a);
            var q := Feed(r.scan, b);
            Feed(s, a + b) == Fed(q.scan, Join(r.output, q.output))
    decreases |a|
  {
    hide Emit, NextState;
    if a == [] {
      assert a + b == b;
      JoinAssoc(Feed(s, b).output, NOTHING, NOTHING);
    } else {
      assert (a + b)[1..] == a[1..] + b;
      FeedInParts(NextState(s, a[0]), a[1..], b);
      var r := Feed(NextState(s, a[0]), a[1..]);
      JoinAssoc(Emit(s, a[0]), r.output, Feed(r.scan, b).output);
    }
  }

  lemma FeedSnoc(s: Scan, a: seq<Byte>, b: Byte)
    requires Sane(s)
    ensures var r := Feed(s, a);
            Feed(s, a + [b]) == Fed(NextState(r.scan, b), Join(r.output, Emit(r.scan, b)))
  {
    FeedInParts(s, a, [b]);
    var r := Feed(s, a);
    assert [b][1..] == [];
    assert Feed(r.scan, [b]) == Fed(NextState(r.scan, b), Join(Emit(r.scan, b), NOTHING));
    JoinAssoc(Emit(r.scan, b), NOTHING, NOTHING);
  }
}
