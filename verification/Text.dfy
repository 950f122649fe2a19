/** Decimal numbers and separator-delimited fields, as the protocol's text frames use them. */
module Text {
  import opened Bytes

  const COLON: Byte := 58
  const COMMA: Byte := 44
  const NEWLINE: Byte := 10

  predicate Digit(b: Byte) { 48 <= b <= 57 }

  predicate Digits(s: seq<Byte>) { forall i | 0 <= i < |s| :: Digit(s[i]) }

  /** Decimal digits, most significant first, no leading zero. */
  function Dec(n: nat): (r: seq<Byte>)
    ensures r != [] && Digits(r)
  {
    if n < 10 then [48 + n] else Dec(n / 10) + [48 + n % 10]
  }

  function Num(s: seq<Byte>): nat
    requires Digits(s)
  {
    if s == [] then 0 else 10 * Num(s[..|s| - 1]) + (s[|s| - 1] - 48)
  }

  lemma {:induction false} NumOfDec(n: nat)
    ensures Num(Dec(n)) == n
  {
    if n >= 10 {
      NumOfDec(n / 10);
      assert Dec(n)[..|Dec(n)| - 1] == Dec(n / 10);
    } else {
      assert Dec(n)[..0] == [];
    }
  }

  /** The number a byte string spells, if it is a non-empty run of digits. */
  function ParseDec(s: seq<Byte>): Option<nat> {
    if s != [] && Digits(s) then Some(Num(s)) else None
  }

  /** The index of the first `sep`, or `|s|`. */
  function Find(s: seq<Byte>, sep: Byte): (i: nat)
    ensures i <= |s|
    ensures i < |s| ==> s[i] == sep
    ensures forall k | 0 <= k < i :: s[k] != sep
  {
    if s == [] || s[0] == sep then 0 else 1 + Find(s[1..], sep)
  }

  lemma FindAt(s: seq<Byte>, sep: Byte, i: nat)
    requires i < |s| && s[i] == sep && forall k | 0 <= k < i :: s[k] != sep
    ensures Find(s, sep) == i
  {
  }

  lemma FindNone(s: seq<Byte>, sep: Byte)
    requires sep !in s
    ensures Find(s, sep) == |s|
  {
    assert forall k | 0 <= k < |s| :: s[k] in s;
  }

  /** Splitting `head + [sep] + tail` at its first separator, when `head` has none. */
  lemma FindAfter(head: seq<Byte>, sep: Byte, tail: seq<Byte>)
    requires sep !in head
    ensures var s := head + [sep] + tail;
            Find(s, sep) == |head| && s[..|head|] == head && s[|head| + 1..] == tail
  {
    var s := head + [sep] + tail;
    forall k | 0 <= k < |head|
      ensures s[k] != sep
    {
      assert s[k] == head[k];
    }
    FindAt(s, sep, |head|);
  }

  lemma DigitsLack(s: seq<Byte>, sep: Byte)
    requires Digits(s) && !Digit(sep)
    ensures sep !in s
  {
  }
}
