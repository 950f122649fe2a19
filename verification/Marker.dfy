/** The hop sync: discard a shell's output up to the BEGIN marker, bounding the buffer on the way. */
module Marker {
  import opened Bytes
  import opened Apc

  const LIMIT: nat := 65536

  predicate OccursAt(s: seq<Byte>, m: seq<Byte>, i: nat) { i + |m| <= |s| && s[i..i + |m|] == m }

  /** The first index at which `m` occurs in `s`. */
  ghost predicate FirstAt(s: seq<Byte>, m: seq<Byte>, i: nat) {
    OccursAt(s, m, i) && forall k | 0 <= k < i :: !OccursAt(s, m, k)
  }

  ghost predicate Absent(s: seq<Byte>, m: seq<Byte>) { forall k: nat :: !OccursAt(s, m, k) }

  method FindSubseq(hay: seq<Byte>, needle: seq<Byte>) returns (at: int)
    ensures at >= 0 ==> needle != [] && FirstAt(hay, needle, at)
    ensures at < 0 ==> needle == [] || Absent(hay, needle)
  {
    if |needle| == 0 || |hay| < |needle| { return -1; }
    for i := 0 to |hay| - |needle| + 1
      invariant forall k | 0 <= k < i :: !OccursAt(hay, needle, k)
    {
      var ok := true;
      for j := 0 to |needle|
        invariant hay[i..i + j] == needle[..j]
      {
        if hay[i + j] != needle[j] {
          assert hay[i..i + |needle|][j] == hay[i + j];
          ok := false;
          break;
        }
        assert hay[i..i + j + 1] == hay[i..i + j] + [hay[i + j]];
        assert needle[..j + 1] == needle[..j] + [needle[j]];
      }
      assert needle[..|needle|] == needle;
      if ok { return i; }
    }
    return -1;
  }

  /** A suffix of `whole` long enough that any occurrence not already in `whole` starts inside it. */
  ghost predicate KeptTail(whole: seq<Byte>, acc: seq<Byte>, m: seq<Byte>) {
    && |acc| <= |whole| && whole[|whole| - |acc|..] == acc
    && (|acc| < |whole| ==> |acc| >= |m| - 1)
  }

  lemma SuffixShift(whole: seq<Byte>, acc: seq<Byte>, m: seq<Byte>, k: nat)
    requires |acc| <= |whole| && whole[|whole| - |acc|..] == acc && k >= |whole| - |acc|
    ensures OccursAt(whole, m, k) <==> OccursAt(acc, m, k - (|whole| - |acc|))
  {
    var d := |whole| - |acc|;
    if k + |m| <= |whole| {
      assert whole[d..] == whole[d..|whole|];
      SliceOfSlice(whole, d, |whole|, k - d, k - d + |m|);
    }
  }

  lemma PrefixShift(whole: seq<Byte>, more: seq<Byte>, m: seq<Byte>, k: nat)
    requires k + |m| <= |whole|
    ensures OccursAt(whole + more, m, k) <==> OccursAt(whole, m, k)
  {
    assert (whole + more)[k..k + |m|] == whole[k..k + |m|];
  }

  /** With `m` absent so far, searching the kept tail plus the new chunk misses nothing. */
  lemma TailSuffices(whole: seq<Byte>, acc: seq<Byte>, chunk: seq<Byte>, m: seq<Byte>, k: nat)
    requires m != [] && KeptTail(whole, acc, m) && Absent(whole, m)
    requires OccursAt(whole + chunk, m, k)
    ensures k >= |whole| - |acc|
  {
    if k < |whole| - |acc| { PrefixShift(whole, chunk, m, k); }
  }

  lemma GrowTail(whole: seq<Byte>, acc: seq<Byte>, chunk: seq<Byte>, m: seq<Byte>)
    requires KeptTail(whole, acc, m)
    ensures KeptTail(whole + chunk, acc + chunk, m)
  {
    assert (whole + chunk)[|whole| - |acc|..] == acc + chunk;
  }

  lemma TrimTail(whole: seq<Byte>, acc: seq<Byte>, m: seq<Byte>, keep: nat)
    requires KeptTail(whole, acc, m) && keep <= |acc| && keep >= |m| - 1
    ensures KeptTail(whole, acc[|acc| - keep..], m)
  {
    var d := |whole| - |acc|;
    assert whole[|whole| - keep..] == whole[d..][|acc| - keep..];
  }

  lemma RestOf(whole: seq<Byte>, acc: seq<Byte>, m: seq<Byte>, i: nat)
    requires KeptTail(whole, acc, m) && i <= |acc|
    ensures whole[|whole| - |acc| + i..] == acc[i..]
  {
    assert whole[|whole| - |acc| + i..] == whole[|whole| - |acc|..][i..];
  }

  /** A first occurrence stays the first one whatever follows. */
  lemma FirstStays(s: seq<Byte>, more: seq<Byte>, m: seq<Byte>, at: nat)
    requires FirstAt(s, m, at)
    ensures FirstAt(s + more, m, at)
  {
    forall k | 0 <= k <= at
      ensures OccursAt(s + more, m, k) == OccursAt(s, m, k)
    {
      PrefixShift(s, more, m, k);
    }
  }

  /** The bytes of the first `n` chunks. */
  function ReadBy(chunks: seq<seq<Byte>>, n: nat): seq<Byte>
    requires n <= |chunks|
  {
    if n == 0 then [] else ReadBy(chunks, n - 1) + chunks[n - 1]
  }

  lemma ReadByNext(chunks: seq<seq<Byte>>, n: nat)
    requires n < |chunks|
    ensures ReadBy(chunks, n + 1) == ReadBy(chunks, n) + chunks[n]
  {
  }

  lemma {:induction false} ReadByGrows(chunks: seq<seq<Byte>>, i: nat, n: nat) returns (more: seq<Byte>)
    requires i <= n <= |chunks|
    ensures ReadBy(chunks, n) == ReadBy(chunks, i) + more
    decreases n
  {
    if i == n {
      more := [];
    } else {
      var before := ReadByGrows(chunks, i, n - 1);
      more := before + chunks[n - 1];
    }
  }

  /** One turn of the loop: search what is kept plus the new data, and trim if it is not there. */
  method ReadChunk(m: seq<Byte>, acc: seq<Byte>, data: seq<Byte>, ghost whole: seq<Byte>)
    returns (rest: Option<seq<Byte>>, kept: seq<Byte>, ghost at: nat)
    requires m != [] && |m| - 1 <= LIMIT
    requires Absent(whole, m) && KeptTail(whole, acc, m)
    ensures rest.None? ==> Absent(whole + data, m) && KeptTail(whole + data, kept, m) && |kept| <= LIMIT
    ensures rest.Some? ==> FirstAt(whole + data, m, at) && at + |m| <= |whole + data|
                           && rest.value == (whole + data)[at + |m|..]
  {
    hide OccursAt, FirstAt, Absent, KeptTail;
    kept, at := acc + data, 0;
    assert kept[..|kept| - |data|] == acc;
    var idx := FindSubseq(kept, m);
    ReadOne(whole, kept, data, m, idx);
    ghost var next := whole + data;
    if idx >= 0 {
      at := |next| - |kept| + idx;
      RestOf(next, kept, m, idx + |m|);
      return Some(kept[idx + |m|..]), kept, at;
    }
    rest := None;
    if |kept| > LIMIT {
      TrimTail(next, kept, m, |m| - 1);
      kept := kept[|kept| - (|m| - 1)..];
    }
  }

  /**
   Read chunks until the marker has arrived; `None` if the stream ends first. Found: the result is
   what had been read beyond the first occurrence in the whole stream, and the marker had not yet
   arrived before the last chunk read.
   */
  method ScanFor(m: seq<Byte>, chunks: seq<seq<Byte>>) returns (rest: Option<seq<Byte>>, used: nat, ghost at: nat)
    requires m != [] && |m| - 1 <= LIMIT
    ensures used <= |chunks|
    ensures rest.None? ==> Absent(ReadBy(chunks, used), m) && (used == |chunks| || chunks[used] == [])
    ensures rest.Some? ==>
              && used > 0 && Absent(ReadBy(chunks, used - 1), m)
              && FirstAt(ReadBy(chunks, |chunks|), m, at) && at + |m| <= |ReadBy(chunks, used)|
              && rest.value == ReadBy(chunks, used)[at + |m|..]
  {
    var acc: seq<Byte> := [];
    rest, used, at := None, 0, 0;
    NothingYet(m);
    assert ReadBy(chunks, 0) == [];
    hide OccursAt, FirstAt, Absent, KeptTail, ReadBy;
    while used < |chunks| && chunks[used] != []
      invariant used <= |chunks| && rest == None
      invariant Absent(ReadBy(chunks, used), m) && KeptTail(ReadBy(chunks, used), acc, m)
    {
      rest, acc, at := ReadChunk(m, acc, chunks[used], ReadBy(chunks, used));
      ReadByNext(chunks, used);
      used := used + 1;
      if rest.Some? {
        ghost var more := ReadByGrows(chunks, used, |chunks|);
        FirstStays(ReadBy(chunks, used), more, m, at);
        assert rest.value == ReadBy(chunks, used)[at + |m|..];
        return;
      }
    }
  }

  lemma NothingYet(m: seq<Byte>)
    requires m != []
    ensures Absent([], m) && KeptTail([], [], m)
  {
  }

  lemma ReadOne(whole: seq<Byte>, acc: seq<Byte>, data: seq<Byte>, m: seq<Byte>, idx: int)
    requires m != [] && Absent(whole, m)
    requires |acc| >= |data| && acc == acc[..|acc| - |data|] + data && KeptTail(whole, acc[..|acc| - |data|], m)
    requires if idx >= 0 then FirstAt(acc, m, idx) else Absent(acc, m)
    ensures var next := whole + data;
            && KeptTail(next, acc, m) && |acc| <= |next|
            && if idx >= 0 then FirstAt(next, m, |next| - |acc| + idx) && idx + |m| <= |acc| else Absent(next, m)
  {
    GrowTail(whole, acc[..|acc| - |data|], data, m);
    FoundInTail(whole, acc, data, m, idx);
  }

  /** The first hit in the buffer is the first in the stream, and none there is none in the stream. */
  lemma FoundInTail(whole: seq<Byte>, acc: seq<Byte>, chunk: seq<Byte>, m: seq<Byte>, idx: int)
    requires m != [] && Absent(whole, m) && KeptTail(whole + chunk, acc, m)
    requires |acc| >= |chunk| && KeptTail(whole, acc[..|acc| - |chunk|], m)
    requires if idx >= 0 then FirstAt(acc, m, idx) else Absent(acc, m)
    ensures var next := whole + chunk;
            if idx >= 0 then FirstAt(next, m, |next| - |acc| + idx) else Absent(next, m)
  {
    var next := whole + chunk;
    var skip := |next| - |acc|;
    forall k: nat | OccursAt(next, m, k)
      ensures k >= skip && OccursAt(acc, m, k - skip)
    {
      TailSuffices(whole, acc[..|acc| - |chunk|], chunk, m, k);
      SuffixShift(next, acc, m, k);
    }
    if idx >= 0 { SuffixShift(next, acc, m, skip + idx); }
  }

  // ----- The BEGIN marker -----

  /** The marker both relays look for: "BEGIN" in an envelope. */
  const BEGIN: seq<Byte> := Envelope([66, 69, 71, 73, 78])

  /** What the hop does with the shell it spawned: discard its output up to the marker. */
  method SwallowUntilBegin(chunks: seq<seq<Byte>>) returns (rest: Option<seq<Byte>>, used: nat, ghost at: nat)
    ensures used <= |chunks|
    ensures rest.None? ==> Absent(ReadBy(chunks, used), BEGIN) && (used == |chunks| || chunks[used] == [])
    ensures rest.Some? ==>
              && used > 0 && Absent(ReadBy(chunks, used - 1), BEGIN)
              && FirstAt(ReadBy(chunks, |chunks|), BEGIN, at) && at + |BEGIN| <= |ReadBy(chunks, used)|
              && rest.value == ReadBy(chunks, used)[at + |BEGIN|..]
  {
    hide OccursAt, FirstAt, Absent, ReadBy;
    rest, used, at := ScanFor(BEGIN, chunks);
  }

  lemma StartsWithEsc(s: seq<Byte>, k: nat)
    requires k < |s|
    ensures OccursAt(s, BEGIN, k) ==> s[k] == ESC
  {
    assert BEGIN[0] == ESC;
    assert OccursAt(s, BEGIN, k) ==> s[k] == s[k..k + |BEGIN|][0];
  }

  /** The echo of the fed line spells the marker but has no ESC, so it is never taken for it. */
  lemma EchoIsNoMarker(echo: seq<Byte>, more: seq<Byte>)
    requires ESC !in echo
    ensures Absent(echo, BEGIN) && FirstAt(echo + BEGIN + more, BEGIN, |echo|)
  {
    var whole := echo + BEGIN + more;
    forall k: nat | k < |echo|
      ensures !OccursAt(whole, BEGIN, k) && !OccursAt(echo, BEGIN, k)
    {
      assert whole[k] == echo[k] && echo[k] in echo;
      StartsWithEsc(whole, k);
      StartsWithEsc(echo, k);
    }
    assert whole[|echo|..|echo| + |BEGIN|] == BEGIN;
  }
}
