/**
 File delivery: base64 (RFC 4648, section 4) in lines of 76 columns (RFC 2045, section 6.8), ended
 by a `~` token line; and the reader that decodes it line by line.
 */
module FileDelivery {
  import opened Bytes
  import opened Text
  import opened Apc
  import opened ApcLaws
  import opened ApcFrames

  const LINE_WIDTH: nat := 76
  const PAD: Byte := 61
  const TILDE: Byte := 126
  const SPACE: Byte := 32

  // ----- Base64 -----

  function Symbol(v: nat): Byte
    requires v < 64
  {
    if v < 26 then 65 + v else if v < 52 then 71 + v else if v < 62 then v - 4 else if v == 62 then 43 else 47
  }

  predicate InAlphabet(c: Byte) {
    65 <= c <= 90 || 97 <= c <= 122 || 48 <= c <= 57 || c == 43 || c == 47
  }

  function Sextet(c: Byte): (v: nat)
    ensures v < 64
  {
    if 65 <= c <= 90 then c - 65 else if 97 <= c <= 122 then c - 71
    else if 48 <= c <= 57 then c + 4 else if c == 43 then 62 else 63
  }

  lemma SymbolSextet(v: nat)
    requires v < 64
    ensures InAlphabet(Symbol(v)) && Sextet(Symbol(v)) == v
  {
  }

  // The four sextets of three bytes, and back.

  function S0(b0: Byte): (v: nat)
    ensures v < 64
  { b0 / 4 }

  function S1(b0: Byte, b1: Byte): (v: nat)
    ensures v < 64
  { b0 % 4 * 16 + b1 / 16 }

  function S2(b1: Byte, b2: Byte): (v: nat)
    ensures v < 64
  { b1 % 16 * 4 + b2 / 64 }

  function S3(b2: Byte): (v: nat)
    ensures v < 64
  { b2 % 64 }

  function B0(w: nat, x: nat): Byte
    requires w < 64 && x < 64
  { w * 4 + x / 16 }

  function B1(x: nat, y: nat): Byte
    requires x < 64 && y < 64
  { x % 16 * 16 + y / 4 }

  function B2(y: nat, z: nat): Byte
    requires y < 64 && z < 64
  { y % 4 * 64 + z }

  lemma SextetSplit(b0: Byte, b1: Byte, b2: Byte)
    ensures B0(S0(b0), S1(b0, b1)) == b0 && B1(S1(b0, b1), S2(b1, b2)) == b1 && B2(S2(b1, b2), S3(b2)) == b2
  {
  }

  /** The four sextets are the three bytes' 24 bits, most significant first. */
  lemma SameBits(b0: Byte, b1: Byte, b2: Byte)
    ensures 262144 * S0(b0) + 4096 * S1(b0, b1) + 64 * S2(b1, b2) + S3(b2)
            == 65536 * b0 as int + 256 * b1 as int + b2 as int
  {
  }

  /** One group: three bytes as four symbols, a shorter last group padded. */
  function Quad(d: seq<Byte>): (q: seq<Byte>)
    requires 1 <= |d| <= 3
    ensures |q| == 4
  {
    if |d| == 1 then [Symbol(S0(d[0])), Symbol(S1(d[0], 0)), PAD, PAD]
    else if |d| == 2 then [Symbol(S0(d[0])), Symbol(S1(d[0], d[1])), Symbol(S2(d[1], 0)), PAD]
    else [Symbol(S0(d[0])), Symbol(S1(d[0], d[1])), Symbol(S2(d[1], d[2])), Symbol(S3(d[2]))]
  }

  function Encode64(d: seq<Byte>): seq<Byte> {
    if d == [] then [] else if |d| <= 3 then Quad(d) else Quad(d[..3]) + Encode64(d[3..])
  }

  /** Section 10 of RFC 4648: "f", "fo" and "foobar" are "Zg==", "Zm8=" and "Zm9vYmFy". */
  lemma KnownVectors()
    ensures Encode64([102]) == [90, 103, PAD, PAD] && Encode64([102, 111]) == [90, 109, 56, PAD]
    ensures Encode64([102, 111, 111, 98, 97, 114]) == [90, 109, 57, 118, 89, 109, 70, 121]
  {
    var d: seq<Byte> := [102, 111, 111, 98, 97, 114];
    assert d[..3] == [102, 111, 111] && d[3..] == [98, 97, 114];
    assert Quad([102, 111, 111]) == [90, 109, 57, 118] && Quad([98, 97, 114]) == [89, 109, 70, 121];
  }

  /** The bytes of one group of four symbols. */
  function Group(c: seq<Byte>): seq<Byte>
    requires |c| == 4
  {
    var w, x, y, z := Sextet(c[0]), Sextet(c[1]), Sextet(c[2]), Sextet(c[3]);
    if c[2] == PAD then [B0(w, x)] else if c[3] == PAD then [B0(w, x), B1(x, y)] else [B0(w, x), B1(x, y), B2(y, z)]
  }

  function Decode64(s: seq<Byte>): seq<Byte> {
    if |s| < 4 then [] else Group(s[..4]) + Decode64(s[4..])
  }

  /** The mux's guarded decoder rejects any byte outside the alphabet. */
  function TryDecode(s: seq<Byte>): Option<seq<Byte>> {
    if forall c | c in s :: InAlphabet(c) || c == PAD then Some(Decode64(s)) else None
  }

  /** Reading one quad of symbols, padded or not. */
  lemma QuadRead(w: nat, x: nat, y: nat, z: nat)
    requires w < 64 && x < 64 && y < 64 && z < 64
    ensures Group([Symbol(w), Symbol(x), PAD, PAD]) == [B0(w, x)]
    ensures Group([Symbol(w), Symbol(x), Symbol(y), PAD]) == [B0(w, x), B1(x, y)]
    ensures Group([Symbol(w), Symbol(x), Symbol(y), Symbol(z)]) == [B0(w, x), B1(x, y), B2(y, z)]
  {
    SymbolSextet(w);
    SymbolSextet(x);
    SymbolSextet(y);
    SymbolSextet(z);
    hide B0, B1, B2, Symbol, Sextet;
  }

  lemma DecodeGroup(c: seq<Byte>)
    requires |c| == 4
    ensures Decode64(c) == Group(c)
  {
    hide Group;
    assert c[..4] == c && c[4..] == [];
  }

  lemma BodyQuad(w: nat, x: nat, y: nat, z: nat)
    requires w < 64 && x < 64 && y < 64 && z < 64
    ensures BodyBytes([Symbol(w), Symbol(x), PAD, PAD]) && BodyBytes([Symbol(w), Symbol(x), Symbol(y), PAD])
    ensures BodyBytes([Symbol(w), Symbol(x), Symbol(y), Symbol(z)])
  {
  }

  lemma GroupRoundTrip(d: seq<Byte>)
    requires 1 <= |d| <= 3
    ensures BodyBytes(Quad(d)) && Decode64(Quad(d)) == d
  {
    hide S0, S1, S2, S3, B0, B1, B2, Symbol, Group, Decode64, BodyBytes;
    var b0, b1, b2 := d[0], if |d| > 1 then d[1] else 0, if |d| > 2 then d[2] else 0;
    SextetSplit(b0, b1, b2);
    QuadRead(S0(b0), S1(b0, b1), S2(b1, b2), S3(b2));
    BodyQuad(S0(b0), S1(b0, b1), S2(b1, b2), S3(b2));
    DecodeGroup(Quad(d));
  }

  predicate BodyBytes(s: seq<Byte>) { forall c | c in s :: InAlphabet(c) || c == PAD }

  lemma {:induction false} DecodeSplits(a: seq<Byte>, b: seq<Byte>)
    requires |a| % 4 == 0
    ensures Decode64(a + b) == Decode64(a) + Decode64(b)
    decreases |a|
  {
    if a == [] {
      assert a + b == b;
    } else {
      assert (a + b)[..4] == a[..4] && (a + b)[4..] == a[4..] + b;
      DecodeSplits(a[4..], b);
    }
  }

  lemma FoursAdd(m: nat, n: nat)
    requires m % 4 == 0 && n % 4 == 0
    ensures (m + n) % 4 == 0
  {
  }

  lemma {:induction false} EncodedLength(d: seq<Byte>)
    ensures |Encode64(d)| % 4 == 0
    decreases |d|
  {
    hide Quad;
    if |d| > 3 {
      EncodedLength(d[3..]);
      FoursAdd(4, |Encode64(d[3..])|);
    }
  }

  lemma {:induction false} EncodedBody(d: seq<Byte>)
    ensures BodyBytes(Encode64(d))
    decreases |d|
  {
    hide Quad, InAlphabet;
    if 0 < |d| <= 3 {
      GroupRoundTrip(d);
    } else if d != [] {
      GroupRoundTrip(d[..3]);
      EncodedBody(d[3..]);
    }
  }

  lemma {:induction false} RoundTrip64(d: seq<Byte>)
    ensures Decode64(Encode64(d)) == d
    decreases |d|
  {
    if 0 < |d| <= 3 {
      GroupRoundTrip(d);
    } else if d != [] {
      hide Quad, Decode64;
      GroupRoundTrip(d[..3]);
      RoundTrip64(d[3..]);
      DecodeSplits(Quad(d[..3]), Encode64(d[3..]));
      assert Encode64(d) == Quad(d[..3]) + Encode64(d[3..]);
      assert d == d[..3] + d[3..];
    }
  }

  // ----- The response: base64 lines, then one `~` line -----

  function Lines(s: seq<Byte>): seq<seq<Byte>> {
    if s == [] then [] else if |s| <= LINE_WIDTH then [s] else [s[..LINE_WIDTH]] + Lines(s[LINE_WIDTH..])
  }

  /** The lines joined by newlines, with a newline at the end. */
  function Rows(lines: seq<seq<Byte>>): seq<Byte> {
    if lines == [] then [] else lines[0] + [NEWLINE] + Rows(lines[1..])
  }

  function Joined(fields: seq<seq<Byte>>): seq<Byte> {
    if fields == [] then [] else if |fields| == 1 then fields[0] else fields[0] + [SPACE] + Joined(fields[1..])
  }

  const EOF_TOKEN: seq<Byte> := [TILDE, 69, 79, 70] // "~EOF"
  const ERR_TOKEN: seq<Byte> := [TILDE, 69, 82, 82] // "~ERR"
  const NOT_CHANGED: seq<Byte> := [78, 79, 84, 95, 67, 72, 65, 78, 71, 69, 68] // "NOT_CHANGED"

  function EofText(flags: seq<seq<Byte>>): seq<Byte> {
    if flags == [] then EOF_TOKEN else EOF_TOKEN + [SPACE] + Joined(flags)
  }

  function ErrText(code: seq<Byte>, detail: seq<Byte>): seq<Byte> {
    if detail == [] then ERR_TOKEN + [SPACE] + code else ERR_TOKEN + [SPACE] + code + [SPACE] + detail
  }

  function Response(data: seq<Byte>, flags: seq<seq<Byte>>): seq<Byte> {
    Rows(Lines(Encode64(data))) + EofText(flags) + [NEWLINE]
  }

  lemma {:induction false} LinesCover(s: seq<Byte>)
    requires |s| % 4 == 0
    ensures Concat(Lines(s)) == s
    ensures forall l | l in Lines(s) :: 0 < |l| <= LINE_WIDTH && |l| % 4 == 0
    ensures forall i | 0 <= i < |Lines(s)| - 1 :: |Lines(s)[i]| == LINE_WIDTH
    decreases |s|
  {
    if s == [] {
    } else if |s| <= LINE_WIDTH {
      assert Lines(s)[1..] == [];
    } else {
      LinesCover(s[LINE_WIDTH..]);
      assert Lines(s)[1..] == Lines(s[LINE_WIDTH..]);
      assert s == s[..LINE_WIDTH] + s[LINE_WIDTH..];
    }
  }

  lemma {:induction false} LinesOfBody(s: seq<Byte>)
    requires BodyBytes(s)
    ensures forall l | l in Lines(s) :: BodyBytes(l)
    decreases |s|
  {
    if |s| > LINE_WIDTH { LinesOfBody(s[LINE_WIDTH..]); }
  }

  function DecodeLines(lines: seq<seq<Byte>>): seq<Byte> {
    if lines == [] then [] else Decode64(lines[0]) + DecodeLines(lines[1..])
  }

  lemma {:induction false} DecodeWhole(lines: seq<seq<Byte>>)
    requires forall l | l in lines :: |l| % 4 == 0
    ensures DecodeLines(lines) == Decode64(Concat(lines))
  {
    if lines != [] {
      DecodeWhole(lines[1..]);
      DecodeSplits(lines[0], Concat(lines[1..]));
    }
  }

  /** Each group of whole lines decoded on its own. */
  function DecodeGroups(groups: seq<seq<seq<Byte>>>): seq<Byte> {
    if groups == [] then [] else Decode64(Concat(groups[0])) + DecodeGroups(groups[1..])
  }

  lemma {:induction false} DecodeGrouped(groups: seq<seq<seq<Byte>>>)
    requires forall l | l in Concat(groups) :: |l| % 4 == 0
    ensures DecodeGroups(groups) == Decode64(Concat(Concat(groups)))
  {
    if groups != [] {
      var first, rest := groups[0], Concat(groups[1..]);
      assert Concat(groups) == first + rest;
      assert forall l | l in first :: l in Concat(groups);
      assert forall l | l in rest :: l in Concat(groups);
      DecodeGrouped(groups[1..]);
      ConcatAppend(first, rest);
      DecodeWhole(first);
      DecodeWhole(rest);
      ConcatMultiple(first);
      DecodeSplits(Concat(first), Concat(rest));
    }
  }

  lemma ConcatHead(lines: seq<seq<Byte>>)
    ensures |Concat(lines)| == if lines == [] then 0 else |lines[0]| + |Concat(lines[1..])|
  {
  }

  lemma {:induction false} ConcatMultiple(lines: seq<seq<Byte>>)
    requires forall l | l in lines :: |l| % 4 == 0
    ensures |Concat(lines)| % 4 == 0
  {
    if lines == [] {
      ConcatHead(lines);
    } else {
      hide Concat;
      ConcatMultiple(lines[1..]);
      ConcatHead(lines);
      FoursAdd(|lines[0]|, |Concat(lines[1..])|);
    }
  }

  /** Decoding the body line by line, or in any groups of whole lines, gives back the data. */
  lemma GroupingIrrelevant(data: seq<Byte>, groups: seq<seq<seq<Byte>>>)
    requires Concat(groups) == Lines(Encode64(data))
    ensures DecodeLines(Lines(Encode64(data))) == data
    ensures DecodeGroups(groups) == data
  {
    RoundTrip64(data);
    EncodedLength(data);
    EncodedBody(data);
    LinesCover(Encode64(data));
    DecodeWhole(Lines(Encode64(data)));
    DecodeGrouped(groups);
  }

  // ----- The reader -----

  datatype Status = Eof | NotChanged | Failed | Ended

  datatype Fetched = Fetched(status: Status, chmod: seq<Byte>, mtime: nat, body: seq<Byte>, unread: seq<Byte>)

  datatype Flags = Flags(chmod: seq<Byte>, mtime: nat)

  datatype Line = Line(text: seq<Byte>, rest: seq<Byte>)

  /** One line; at the end of the stream a last unterminated line still counts if it is not empty. */
  function NextLine(s: seq<Byte>): (r: Option<Line>)
    ensures r.Some? ==> |r.value.rest| < |s|
  {
    if s == [] then None
    else
      var i := Find(s, NEWLINE);
      if i == |s| then Some(Line(s, [])) else Some(Line(s[..i], s[i + 1..]))
  }

  predicate White(c: Byte) { c == SPACE || 9 <= c <= 13 }

  function TrimLeft(s: seq<Byte>): seq<Byte> {
    if s != [] && White(s[0]) then TrimLeft(s[1..]) else s
  }

  function TrimRight(s: seq<Byte>): seq<Byte> {
    if s != [] && White(s[|s| - 1]) then TrimRight(s[..|s| - 1]) else s
  }

  function Split(s: seq<Byte>, sep: Byte): (r: seq<seq<Byte>>)
    ensures r != []
  {
    var i := Find(s, sep);
    if i == |s| then [s] else [s[..i]] + Split(s[i + 1..], sep)
  }

  const CHMOD: seq<Byte> := [99, 104, 109, 111, 100, 61] // "chmod="
  const MTIME: seq<Byte> := [109, 116, 105, 109, 101, 61] // "mtime="
  const PLUS_X: seq<Byte> := [43, 120] // "+x"

  function DigitRun(s: seq<Byte>): (n: nat)
    ensures n <= |s| && Digits(s[..n])
  {
    if s != [] && Digit(s[0]) then
      assert s[1..][..DigitRun(s[1..])] == s[1..1 + DigitRun(s[1..])];
      1 + DigitRun(s[1..])
    else 0
  }

  function LeadingNum(s: seq<Byte>): nat { Num(s[..DigitRun(s)]) }

  function ReadFlag(f: Flags, field: seq<Byte>): Flags {
    if StartsWith(field, CHMOD) then f.(chmod := field[|CHMOD|..])
    else if StartsWith(field, MTIME) then f.(mtime := LeadingNum(field[|MTIME|..]))
    else f
  }

  function ReadFlags(fields: seq<seq<Byte>>): Flags {
    if fields == [] then Flags([], 0) else ReadFlag(ReadFlags(fields[..|fields| - 1]), fields[|fields| - 1])
  }

  function EofFlags(line: seq<Byte>): Flags
    requires StartsWith(line, EOF_TOKEN)
  {
    ReadFlags(Split(TrimRight(TrimLeft(line[|EOF_TOKEN|..])), SPACE))
  }

  function ReadResp(unread: seq<Byte>, body: seq<Byte>): Fetched
    decreases |unread|
  {
    match NextLine(unread)
    case None => Fetched(Ended, [], 0, body, unread)
    case Some(Line(text, rest)) =>
      if StartsWith(text, EOF_TOKEN) then
        var f := EofFlags(text);
        Fetched(Eof, f.chmod, f.mtime, body, rest)
      else if StartsWith(text, ERR_TOKEN + [SPACE] + NOT_CHANGED) then Fetched(NotChanged, [], 0, body, rest)
      else if StartsWith(text, ERR_TOKEN) then Fetched(Failed, [], 0, body, rest)
      else match TryDecode(text)
        case None => Fetched(Failed, [], 0, body, rest)
        case Some(data) => ReadResp(rest, body + data)
  }

  /** A readable descriptor: the bytes not yet read from it. */
  class Source {
    var unread: seq<Byte>

    constructor (bytes: seq<Byte>)
      ensures unread == bytes
    {
      unread := bytes;
    }

    /** Read byte by byte, so that nothing past the line is taken. */
    method ReadLine() returns (line: seq<Byte>, ok: bool)
      modifies this
      ensures match NextLine(old(unread))
              case None => !ok && line == [] && unread == []
              case Some(Line(text, rest)) => ok && line == text && unread == rest
    {
      line := [];
      while |unread| > 0
        invariant NEWLINE !in line && old(unread) == line + unread
        decreases |unread|
      {
        var c := unread[0];
        ghost var before := unread;
        unread := unread[1..];
        assert old(unread) == line + [c] + unread;
        if c == NEWLINE {
          FindAfter(line, NEWLINE, unread);
          return line, true;
        }
        line := line + [c];
      }
      assert old(unread) == line;
      FindNone(line, NEWLINE);
      ok := |line| > 0;
    }
  }

  /** The file being written. */
  class Sink {
    var content: seq<Byte>

    constructor ()
      ensures content == []
    {
      content := [];
    }
  }

  method ParseFlags(text: seq<Byte>) returns (f: Flags)
    ensures f == ReadFlags(Split(TrimRight(TrimLeft(text)), SPACE))
  {
    var fields := Split(TrimRight(TrimLeft(text)), SPACE);
    f := Flags([], 0);
    for i := 0 to |fields|
      invariant f == ReadFlags(fields[..i])
    {
      assert fields[..i + 1][..i] == fields[..i];
      if StartsWith(fields[i], CHMOD) {
        f := f.(chmod := fields[i][|CHMOD|..]);
      } else if StartsWith(fields[i], MTIME) {
        f := f.(mtime := LeadingNum(fields[i][|MTIME|..]));
      }
    }
    assert fields[..|fields|] == fields;
  }

  method ReadFileResp(fd: Source, f: Sink) returns (status: Status, chmod: seq<Byte>, mtime: nat)
    modifies fd, f
    ensures Fetched(status, chmod, mtime, f.content, fd.unread) == ReadResp(old(fd.unread), old(f.content))
  {
    chmod, mtime, status := [], 0, Ended;
    while true
      invariant status == Ended && chmod == [] && mtime == 0
      invariant ReadResp(fd.unread, f.content) == ReadResp(old(fd.unread), old(f.content))
      decreases |fd.unread|
    {
      var line, ok := fd.ReadLine();
      if !ok { return; }
      if StartsWith(line, EOF_TOKEN) {
        var flags := ParseFlags(line[|EOF_TOKEN|..]);
        return Eof, flags.chmod, flags.mtime;
      } else if StartsWith(line, ERR_TOKEN + [SPACE] + NOT_CHANGED) {
        return NotChanged, [], 0;
      } else if StartsWith(line, ERR_TOKEN) {
        return Failed, [], 0;
      } else {
        var decoded := TryDecode(line);
        if decoded.None? { return Failed, [], 0; }
        f.content := f.content + decoded.value;
      }
    }
  }

  // ----- What the reader makes of a response -----

  lemma LineThen(text: seq<Byte>, rest: seq<Byte>)
    requires NEWLINE !in text
    ensures NextLine(text + [NEWLINE] + rest) == Some(Line(text, rest))
  {
    FindAfter(text, NEWLINE, rest);
  }

  // What a line is.

  datatype Kind = Finish | Unchanged | Refusal | Garbage | Content

  function KindOf(line: seq<Byte>): Kind {
    if StartsWith(line, EOF_TOKEN) then Finish
    else if StartsWith(line, ERR_TOKEN + [SPACE] + NOT_CHANGED) then Unchanged
    else if StartsWith(line, ERR_TOKEN) then Refusal
    else if BodyBytes(line) then Content else Garbage
  }

  lemma ReadOne(s: seq<Byte>, body: seq<Byte>)
    requires s != []
    ensures var l := NextLine(s).value;
            var r := ReadResp(s, body);
            match KindOf(l.text)
            case Content => r == ReadResp(l.rest, body + Decode64(l.text))
            case Finish => r.status == Eof && r.body == body && r.unread == l.rest
            case Unchanged => r.status == NotChanged && r.body == body && r.unread == l.rest
            case _ => r.status == Failed && r.body == body && r.unread == l.rest
  {
    hide EofFlags, Decode64, StartsWith;
  }

  lemma BodyIsContent(l: seq<Byte>)
    requires BodyBytes(l)
    ensures KindOf(l) == Content
  {
    assert TILDE !in l;
    assert |l| > 0 ==> l[0] in l;
    assert !StartsWith(l, EOF_TOKEN) by { if |l| >= 4 { assert l[..4][0] == l[0]; } }
    assert !StartsWith(l, ERR_TOKEN) by { if |l| >= 4 { assert l[..4][0] == l[0]; } }
    var t := ERR_TOKEN + [SPACE] + NOT_CHANGED;
    assert !StartsWith(l, t) by { if |l| >= |t| { assert l[..|t|][0] == l[0] && t[0] == TILDE; } }
  }

  /** A body line is never taken for a `~` line, and is always accepted. */
  lemma BodyLineRead(l: seq<Byte>, rest: seq<Byte>, body: seq<Byte>)
    requires BodyBytes(l)
    ensures ReadResp(l + [NEWLINE] + rest, body) == ReadResp(rest, body + Decode64(l))
  {
    assert NEWLINE !in l;
    LineThen(l, rest);
    BodyIsContent(l);
    ReadOne(l + [NEWLINE] + rest, body);
    hide ReadResp;
  }

  lemma {:induction false} BodyRead(lines: seq<seq<Byte>>, rest: seq<Byte>, body: seq<Byte>)
    requires forall l | l in lines :: BodyBytes(l)
    ensures ReadResp(Rows(lines) + rest, body) == ReadResp(rest, body + DecodeLines(lines))
    decreases |lines|
  {
    hide ReadResp, Decode64, InAlphabet;
    if lines == [] {
      assert Rows(lines) + rest == rest && body + DecodeLines(lines) == body;
    } else {
      var more := Rows(lines[1..]) + rest;
      assert Rows(lines) + rest == lines[0] + [NEWLINE] + more;
      BodyLineRead(lines[0], more, body);
      BodyRead(lines[1..], rest, body + Decode64(lines[0]));
      assert body + Decode64(lines[0]) + DecodeLines(lines[1..]) == body + DecodeLines(lines);
    }
  }

  /** A flag the wire can carry: not empty, no white space. */
  predicate FlagFits(f: seq<Byte>) { f != [] && forall c | c in f :: !White(c) }

  /** Splitting before the first separator. */
  lemma SplitFirst(head: seq<Byte>, sep: Byte, tail: seq<Byte>)
    requires sep !in head
    ensures Split(head, sep) == [head] && Split(head + [sep] + tail, sep) == [head] + Split(tail, sep)
  {
    FindNone(head, sep);
    FindAfter(head, sep, tail);
  }

  lemma {:induction false} SplitJoined(fields: seq<seq<Byte>>)
    requires fields != [] && forall f | f in fields :: SPACE !in f
    ensures Split(Joined(fields), SPACE) == fields
  {
    hide Split;
    assert fields == [fields[0]] + fields[1..];
    if |fields| == 1 {
      SplitFirst(fields[0], SPACE, []);
    } else {
      SplitJoined(fields[1..]);
      SplitFirst(fields[0], SPACE, Joined(fields[1..]));
    }
  }

  lemma {:induction false} JoinedEnds(fields: seq<seq<Byte>>)
    requires fields != [] && forall f | f in fields :: FlagFits(f)
    ensures var j := Joined(fields); j != [] && !White(j[0]) && !White(j[|j| - 1]) && NEWLINE !in j
  {
    var f := fields[0];
    assert FlagFits(f);
    assert f[0] in f && f[|f| - 1] in f;
    if |fields| > 1 { JoinedEnds(fields[1..]); }
  }

  lemma FlagsRead(flags: seq<seq<Byte>>)
    requires forall f | f in flags :: FlagFits(f)
    ensures EofFlags(EofText(flags)) == ReadFlags(flags)
  {
    var line := EofText(flags);
    if flags == [] {
      assert line[4..] == [];
      var none: seq<seq<Byte>> := [[]];
      assert Split([], SPACE) == none && none[..0] == [];
      assert ReadFlags(none) == ReadFlag(ReadFlags([]), []);
    } else {
      JoinedEnds(flags);
      var j := Joined(flags);
      assert line[4..] == [SPACE] + j;
      assert ([SPACE] + j)[1..] == j;
      assert TrimLeft([SPACE] + j) == TrimLeft(j) == j;
      forall f | f in flags
        ensures SPACE !in f
      {
        assert FlagFits(f);
      }
      SplitJoined(flags);
    }
  }

  lemma BodyOfData(data: seq<Byte>)
    ensures var lines := Lines(Encode64(data));
            (forall l | l in lines :: BodyBytes(l)) && DecodeLines(lines) == data
  {
    EncodedLength(data);
    EncodedBody(data);
    LinesOfBody(Encode64(data));
    LinesCover(Encode64(data));
    DecodeWhole(Lines(Encode64(data)));
    RoundTrip64(data);
  }

  lemma EofRead(flags: seq<seq<Byte>>, body: seq<Byte>, extra: seq<Byte>)
    requires forall f | f in flags :: FlagFits(f)
    ensures ReadResp(EofText(flags) + [NEWLINE] + extra, body)
            == Fetched(Eof, ReadFlags(flags).chmod, ReadFlags(flags).mtime, body, extra)
  {
    var text := EofText(flags);
    if flags != [] { JoinedEnds(flags); }
    LineThen(text, extra);
    assert text[..4] == EOF_TOKEN;
    FlagsRead(flags);
  }

  /**
   The delivery round trip: for all data and flags, the reader gets the data and the flags, and
   leaves exactly what followed the response.
   */
  lemma DeliveryRoundTrip(data: seq<Byte>, flags: seq<seq<Byte>>, extra: seq<Byte>)
    requires forall f | f in flags :: FlagFits(f)
    ensures ReadResp(Response(data, flags) + extra, [])
            == Fetched(Eof, ReadFlags(flags).chmod, ReadFlags(flags).mtime, data, extra)
  {
    var lines, last := Lines(Encode64(data)), EofText(flags) + [NEWLINE] + extra;
    hide ReadResp, ReadFlags, EofText, Lines, Rows, DecodeLines, Encode64, FlagFits, BodyBytes;
    assert Response(data, flags) + extra == Rows(lines) + last;
    BodyOfData(data);
    BodyRead(lines, last, []);
    assert [] + data == data;
    EofRead(flags, data, extra);
  }

  lemma FlagKinds(f: seq<Byte>)
    ensures StartsWith(f, CHMOD) ==> !StartsWith(f, MTIME)
  {
    if |f| >= |CHMOD| {
      assert f[..|CHMOD|][0] == f[0] && f[..|MTIME|][0] == f[0] && CHMOD[0] != MTIME[0];
    }
  }

  /** Of several fields for one flag the last counts, whatever other fields come after it. */
  lemma {:induction false} LastFlagCounts(fields: seq<seq<Byte>>, i: nat)
    requires i < |fields|
    ensures StartsWith(fields[i], CHMOD) && (forall j | i < j < |fields| :: !StartsWith(fields[j], CHMOD)) ==>
              ReadFlags(fields).chmod == fields[i][|CHMOD|..]
    ensures StartsWith(fields[i], MTIME) && (forall j | i < j < |fields| :: !StartsWith(fields[j], MTIME)) ==>
              ReadFlags(fields).mtime == LeadingNum(fields[i][|MTIME|..])
  {
    FlagKinds(fields[|fields| - 1]);
    hide LeadingNum, StartsWith;
    if i < |fields| - 1 { LastFlagCounts(fields[..|fields| - 1], i); }
  }

  /** The flags the bucket serves: `chmod=+x` for an executable source, and always its `mtime`. */
  function ServedFlags(executable: bool, mtime: nat): seq<seq<Byte>> {
    (if executable then [CHMOD + PLUS_X] else []) + [MTIME + Dec(mtime)]
  }

  lemma {:induction false} DigitRunAll(s: seq<Byte>)
    requires Digits(s)
    ensures DigitRun(s) == |s|
  {
    if s != [] { DigitRunAll(s[1..]); }
  }

  lemma ServedFlagsRead(executable: bool, mtime: nat)
    ensures var flags := ServedFlags(executable, mtime);
            && (forall f | f in flags :: FlagFits(f))
            && ReadFlags(flags) == Flags(if executable then PLUS_X else [], mtime)
  {
    var c, m := CHMOD + PLUS_X, MTIME + Dec(mtime);
    var flags := ServedFlags(executable, mtime);
    assert c[..|CHMOD|] == CHMOD && c[|CHMOD|..] == PLUS_X;
    assert m[..|MTIME|] == MTIME && m[|MTIME|..] == Dec(mtime);
    assert !StartsWith(m, CHMOD) by { assert m[0] == 109 && CHMOD[0] == 99; assert m[..|CHMOD|][0] == m[0]; }
    DigitRunAll(Dec(mtime));
    NumOfDec(mtime);
    assert Dec(mtime)[..|Dec(mtime)|] == Dec(mtime);
    assert ReadFlags([]) == Flags([], 0);
    if executable {
      assert flags == [c, m] && flags[..1] == [c] && [c][..0] == [];
    } else {
      assert flags == [m] && flags[..0] == [];
    }
    FlagBytes(mtime);
  }

  lemma FlagBytes(mtime: nat)
    ensures FlagFits(CHMOD + PLUS_X) && FlagFits(MTIME + Dec(mtime))
  {
    assert forall i | 0 <= i < |CHMOD| :: !White(CHMOD[i]);
    assert forall i | 0 <= i < |MTIME| :: !White(MTIME[i]);
    assert forall i | 0 <= i < 2 :: !White(PLUS_X[i]);
    assert forall i | 0 <= i < |Dec(mtime)| :: Digit(Dec(mtime)[i]);
  }

  /** What a served file is fetched as. */
  lemma ServedFile(data: seq<Byte>, executable: bool, mtime: nat, extra: seq<Byte>)
    ensures ReadResp(Response(data, ServedFlags(executable, mtime)) + extra, [])
            == Fetched(Eof, if executable then PLUS_X else [], mtime, data, extra)
  {
    ServedFlagsRead(executable, mtime);
    DeliveryRoundTrip(data, ServedFlags(executable, mtime), extra);
  }

  /** An error response: `NOT_CHANGED` is told apart from every other code, and nothing is written. */
  lemma ErrorRead(code: seq<Byte>, detail: seq<Byte>, extra: seq<Byte>)
    requires NEWLINE !in code && NEWLINE !in detail
    ensures var r := ReadResp(ErrText(code, detail) + [NEWLINE] + extra, []);
            && r.body == [] && r.unread == extra
            && r.status == if StartsWith(code, NOT_CHANGED) then NotChanged else Failed
  {
    var text := ErrText(code, detail);
    LineThen(text, extra);
    assert text[..4] == ERR_TOKEN;
    assert !StartsWith(text, EOF_TOKEN) by { assert text[..4][1] != EOF_TOKEN[1] || text[..4][2] != EOF_TOKEN[2]; }
    NotChangedPrefix(code, detail);
  }

  lemma PrefixBeforeSpace(a: seq<Byte>, tail: seq<Byte>, p: seq<Byte>)
    requires SPACE !in p && (tail != [] ==> tail[0] == SPACE)
    ensures StartsWith(a + tail, p) <==> StartsWith(a, p)
  {
    var s := a + tail;
    if |p| <= |a| { assert s[..|p|] == a[..|p|]; }
    if StartsWith(s, p) {
      assert tail != [] ==> s[|a|] == SPACE;
      assert forall k | 0 <= k < |p| :: s[k] == p[k] by { assert forall k | 0 <= k < |p| :: s[..|p|][k] == s[k]; }
      assert |p| <= |a|;
    }
  }

  lemma NotChangedPrefix(code: seq<Byte>, detail: seq<Byte>)
    ensures StartsWith(ErrText(code, detail), ERR_TOKEN + [SPACE] + NOT_CHANGED) <==> StartsWith(code, NOT_CHANGED)
  {
    var tail := if detail == [] then [] else [SPACE] + detail;
    var head := ERR_TOKEN + [SPACE];
    assert ErrText(code, detail) == head + (code + tail);
    assert forall i | 0 <= i < |NOT_CHANGED| :: NOT_CHANGED[i] != SPACE;
    PrefixBeforeSpace(code, tail, NOT_CHANGED);
    PrefixShared(head, code + tail, NOT_CHANGED);
  }

  lemma PrefixShared(head: seq<Byte>, s: seq<Byte>, p: seq<Byte>)
    ensures StartsWith(head + s, head + p) <==> StartsWith(s, p)
  {
    if |p| <= |s| {
      assert (head + s)[..|head + p|] == head + s[..|p|];
      assert (head + p)[|head|..] == p && (head + s[..|p|])[|head|..] == s[..|p|];
    }
  }

  // ----- What any stream is read as -----

  /** The lines of a stream; the last need not be ended. */
  function AllLines(s: seq<Byte>): seq<seq<Byte>>
    decreases |s|
  {
    match NextLine(s)
    case None => []
    case Some(Line(text, rest)) => [text] + AllLines(rest)
  }

  /** How many lines of content come first. */
  function Leading(lines: seq<seq<Byte>>): (k: nat)
    ensures k <= |lines|
  {
    if lines != [] && KindOf(lines[0]) == Content then 1 + Leading(lines[1..]) else 0
  }

  /** The first line that is no content decides; without one the stream has broken off. */
  function Verdict(lines: seq<seq<Byte>>): Status {
    if Leading(lines) == |lines| then Ended
    else match KindOf(lines[Leading(lines)])
      case Finish => Eof
      case Unchanged => NotChanged
      case _ => Failed
  }

  lemma LinesFrom(s: seq<Byte>)
    ensures s == [] ==> AllLines(s) == []
    ensures s != [] ==> NextLine(s).Some?
    ensures s != [] ==>
              var l := NextLine(s).value;
              AllLines(s) == [l.text] + AllLines(l.rest) && AllLines(s)[1..] == AllLines(l.rest)
  {
    if s != [] {
      var l := NextLine(s).value;
      assert ([l.text] + AllLines(l.rest))[1..] == AllLines(l.rest);
    }
  }

  lemma NothingRead(body: seq<Byte>)
    ensures ReadResp([], body) == Fetched(Ended, [], 0, body, [])
  {
  }

  /** A line of content in front counts for itself. */
  lemma LeadingOne(l: seq<Byte>, lines: seq<seq<Byte>>)
    requires KindOf(l) == Content
    ensures var all, k := [l] + lines, Leading(lines);
            && Leading(all) == k + 1 && Verdict(all) == Verdict(lines)
            && DecodeLines(all[..k + 1]) == Decode64(l) + DecodeLines(lines[..k])
            && (k < |lines| ==> all[k + 2..] == lines[k + 1..])
  {
    hide KindOf, Decode64;
    var all, k := [l] + lines, Leading(lines);
    assert all[1..] == lines;
    assert all[..k + 1][1..] == lines[..k];
  }

  /** Any other line in front decides. */
  lemma LeadingNone(l: seq<Byte>, lines: seq<seq<Byte>>)
    requires KindOf(l) != Content
    ensures var all := [l] + lines;
            && Leading(all) == 0 && DecodeLines(all[..0]) == [] && all[1..] == lines
            && Verdict(all) == match KindOf(l)
                               case Finish => Eof
                               case Unchanged => NotChanged
                               case _ => Failed
  {
    hide KindOf;
  }

  lemma NoLines()
    ensures Leading([]) == 0 && Verdict([]) == Ended && DecodeLines([]) == []
  {
  }

  /**
   Whatever the stream holds: the content lines before the first other line are written, that line decides,
   and nothing after it is read. `Eof` comes of a line that starts with the token alone.
   */
  lemma {:induction false} ReadVerdict(s: seq<Byte>, body: seq<Byte>)
    ensures var r, lines := ReadResp(s, body), AllLines(s);
            var k := Leading(lines);
            && r.status == Verdict(lines) && r.body == body + DecodeLines(lines[..k])
            && AllLines(r.unread) == if k < |lines| then lines[k + 1..] else []
    decreases |s|
  {
    hide KindOf, Decode64, Verdict, Leading, DecodeLines, ReadResp, AllLines, NextLine;
    LinesFrom(s);
    NoLines();
    if s == [] {
      NothingRead(body);
      assert body + [] == body;
    } else {
      var l := NextLine(s).value;
      var rest := AllLines(l.rest);
      ReadOne(s, body);
      if KindOf(l.text) == Content {
        ReadVerdict(l.rest, body + Decode64(l.text));
        LeadingOne(l.text, rest);
        var after := DecodeLines(rest[..Leading(rest)]);
        assert body + Decode64(l.text) + after == body + (Decode64(l.text) + after);
      } else {
        LeadingNone(l.text, rest);
        assert body + [] == body;
      }
    }
  }

  /** Less than the token is garbage. */
  lemma TokenCut(p: seq<Byte>)
    requires p <= EOF_TOKEN && 0 < |p| < |EOF_TOKEN|
    ensures KindOf(p) == Garbage && NEWLINE !in p
  {
    assert p[0] == TILDE && p[0] in p;
    assert forall i | 0 <= i < |p| :: p[i] == EOF_TOKEN[i] != NEWLINE;
  }

  lemma LastLine(p: seq<Byte>)
    requires p != [] && NEWLINE !in p
    ensures NextLine(p) == Some(Line(p, []))
  {
    FindNone(p, NEWLINE);
  }

  lemma DecodeStart(p: seq<Byte>, whole: seq<Byte>)
    requires p <= whole
    ensures Decode64(p) <= Decode64(whole)
    decreases |p|
  {
    if |p| >= 4 {
      assert p[..4] == whole[..4];
      DecodeStart(p[4..], whole[4..]);
    }
  }

  lemma CutLine(l: seq<Byte>, tail: seq<Byte>, p: seq<Byte>)
    requires p <= l + [NEWLINE] + tail
    ensures |p| > |l| ==> p == l + [NEWLINE] + p[|l| + 1..] && p[|l| + 1..] <= tail
    ensures |p| <= |l| ==> p <= l
  {
    var s := l + [NEWLINE];
    if |p| > |l| { assert p[..|s|] == s && p[|s|..] <= (s + tail)[|s|..]; }
  }

  /** A body that breaks off, in a line or between two, or inside the token that ends it. */
  lemma {:induction false} BodyCut(lines: seq<seq<Byte>>, p: seq<Byte>, body: seq<Byte>)
    requires (forall l | l in lines :: BodyBytes(l)) && p <= Rows(lines) + EOF_TOKEN
    requires |p| < |Rows(lines)| + |EOF_TOKEN|
    ensures var r := ReadResp(p, body);
            (r.status == Ended || r.status == Failed) && r.body <= body + DecodeLines(lines)
    decreases |lines|
  {
    hide ReadResp, Decode64, KindOf, BodyBytes, NextLine;
    if p == [] {
      NothingRead(body);
    } else if lines == [] {
      assert Rows(lines) + EOF_TOKEN == EOF_TOKEN;
      TokenCut(p);
      LastLine(p);
      ReadOne(p, body);
    } else {
      var l, more := lines[0], Rows(lines[1..]);
      assert BodyBytes(l);
      assert Rows(lines) + EOF_TOKEN == l + [NEWLINE] + (more + EOF_TOKEN);
      CutLine(l, more + EOF_TOKEN, p);
      if |p| > |l| {
        var p' := p[|l| + 1..];
        BodyLineRead(l, p', body);
        BodyCut(lines[1..], p', body + Decode64(l));
        assert body + Decode64(l) + DecodeLines(lines[1..]) == body + DecodeLines(lines);
      } else {
        LineCut(l, p, body);
        assert body + DecodeLines(lines) == body + Decode64(l) + DecodeLines(lines[1..]);
      }
    }
  }

  /** The last, unfinished line of a body: what it decodes to is the beginning of what the line does. */
  lemma LineCut(l: seq<Byte>, p: seq<Byte>, body: seq<Byte>)
    requires BodyBytes(l) && p <= l && p != []
    ensures var r := ReadResp(p, body); r.status == Ended && r.body <= body + Decode64(l)
  {
    assert forall c | c in p :: c in l;
    assert NEWLINE !in p;
    BodyIsContent(p);
    LastLine(p);
    ReadOne(p, body);
    NothingRead(body + Decode64(p));
    DecodeStart(p, l);
    hide ReadResp, Decode64;
  }

  /**
   A response that breaks off is taken for complete if and only if the whole end token came, and then all
   the data has come; whatever came, only the beginning of the data was written.
   */
  lemma CutShort(data: seq<Byte>, flags: seq<seq<Byte>>, n: nat)
    requires n <= |Response(data, flags)| && forall f | f in flags :: FlagFits(f)
    ensures var r, whole := ReadResp(Response(data, flags)[..n], []), |Rows(Lines(Encode64(data)))| + |EOF_TOKEN|;
            && (r.status == Eof <==> n >= whole) && r.status != NotChanged
            && r.body <= data && (r.status == Eof ==> r.body == data)
  {
    var lines := Lines(Encode64(data));
    BodyOfData(data);
    var p := Response(data, flags)[..n];
    TokenFirst(flags);
    hide ReadResp, Encode64, Lines, Rows, DecodeLines, FlagFits, BodyBytes, Response;
    ResponseParts(data, flags);
    var tail := EofText(flags) + [NEWLINE];
    if n < |Rows(lines)| + |EOF_TOKEN| {
      assert p <= Rows(lines) + EOF_TOKEN;
      BodyCut(lines, p, []);
      assert [] + data == data;
    } else {
      var rest := tail[..n - |Rows(lines)|];
      assert p == Rows(lines) + rest;
      BodyRead(lines, rest, []);
      assert [] + data == data;
      TokenRead(flags, rest, data);
    }
  }

  lemma ResponseParts(data: seq<Byte>, flags: seq<seq<Byte>>)
    ensures Response(data, flags) == Rows(Lines(Encode64(data))) + (EofText(flags) + [NEWLINE])
  {
  }

  lemma TokenFirst(flags: seq<seq<Byte>>)
    ensures EOF_TOKEN <= EofText(flags)
  {
  }

  /** The token, and any part of what follows it on its line. */
  lemma TokenRead(flags: seq<seq<Byte>>, rest: seq<Byte>, body: seq<Byte>)
    requires rest <= EofText(flags) + [NEWLINE] && |rest| >= |EOF_TOKEN| && forall f | f in flags :: FlagFits(f)
    ensures ReadResp(rest, body).status == Eof && ReadResp(rest, body).body == body
  {
    var text := EofText(flags);
    if flags != [] { JoinedEnds(flags); }
    assert NEWLINE !in text;
    var line := if |rest| <= |text| then rest else text;
    assert line[..4] == EOF_TOKEN;
    if |rest| <= |text| {
      assert forall c | c in rest :: c in text;
      LastLine(rest);
    } else {
      assert rest == text + [NEWLINE] + [];
      LineThen(text, []);
    }
    ReadOne(rest, body);
    hide ReadResp, EofText;
  }

  // ----- Safe inside an envelope -----

  lemma {:induction false} RowsQuiet(lines: seq<seq<Byte>>)
    requires forall l | l in lines :: BodyBytes(l)
    ensures Quiet(Rows(lines))
  {
    if lines != [] {
      RowsQuiet(lines[1..]);
      assert BodyBytes(lines[0]);
    }
  }

  lemma {:induction false} JoinedQuiet(fields: seq<seq<Byte>>)
    requires forall f | f in fields :: Quiet(f)
    ensures Quiet(Joined(fields))
  {
    if fields != [] {
      assert Quiet(fields[0]);
      if |fields| > 1 { JoinedQuiet(fields[1..]); }
    }
  }

  /** A response crosses the terminal stream intact, whatever the data. */
  lemma ResponseSafe(data: seq<Byte>, flags: seq<seq<Byte>>)
    requires forall f | f in flags :: Quiet(f)
    ensures Safe(Response(data, flags))
    ensures Feed(IDLE, Envelope(Response(data, flags))) == Fed(IDLE, Output([], [Response(data, flags)]))
  {
    EncodedBody(data);
    LinesOfBody(Encode64(data));
    RowsQuiet(Lines(Encode64(data)));
    JoinedQuiet(flags);
    QuietIsSafe(Response(data, flags));
    EnvelopeRoundTrip(Response(data, flags));
  }
}
