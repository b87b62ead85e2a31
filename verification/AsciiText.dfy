/** ASCII case folding, decimal numbers and searching in text. */
module AsciiText {
  function LowerChar(c: char): char {
    if 'A' <= c <= 'Z' then c - 'A' + 'a' else c
  }

  function Lower(s: string): (lower: string)
    ensures |lower| == |s| && forall i :: 0 <= i < |s| ==> lower[i] == LowerChar(s[i])
  {
    seq(|s|, i requires 0 <= i < |s| => LowerChar(s[i]))
  }

  predicate SameName(a: string, b: string) {
    Lower(a) == Lower(b)
  }

  predicate IsDigitChar(c: char) { '0' <= c <= '9' }

  predicate IsAlphanumericChar(c: char) { IsDigitChar(c) || 'a' <= c <= 'z' || 'A' <= c <= 'Z' }

  function Number(digits: string): nat
    requires forall i :: 0 <= i < |digits| ==> IsDigitChar(digits[i])
  {
    if digits == "" then 0
    else
      var last := digits[|digits| - 1];
      assert IsDigitChar(last);
      Number(digits[..|digits| - 1]) * 10 + (last - '0') as nat
  }

  function IndexOfChar(s: string, c: char): (i: nat)
    ensures i <= |s| && (i < |s| ==> s[i] == c)
    ensures forall j :: 0 <= j < i ==> s[j] != c
  {
    if s == "" || s[0] == c then 0 else 1 + IndexOfChar(s[1..], c)
  }

  function TrimEndDots(s: string): string {
    if s != "" && s[|s| - 1] == '.' then TrimEndDots(s[..|s| - 1]) else s
  }

  /** The pieces of `s` between the occurrences of `c`. */
  function Split(s: string, c: char): (pieces: seq<string>)
    ensures pieces != []
    decreases |s|
  {
    var i := IndexOfChar(s, c);
    if i == |s| then [s] else [s[..i]] + Split(s[i + 1..], c)
  }

  predicate Free(s: string, c: char) {
    forall i :: 0 <= i < |s| ==> s[i] != c
  }

  lemma IndexOfFirst(s: string, c: char, rest: string)
    requires Free(s, c)
    ensures IndexOfChar(s + [c] + rest, c) == |s| && IndexOfChar(s, c) == |s|
  {
    assert (s + [c] + rest)[|s|] == c;
    assert forall i :: 0 <= i < |s| ==> (s + [c] + rest)[i] == s[i];
  }

  lemma SplitJoin(piece: string, c: char, rest: string)
    requires Free(piece, c)
    ensures Split(piece + [c] + rest, c) == [piece] + Split(rest, c)
    ensures Split(piece, c) == [piece]
  {
    IndexOfFirst(piece, c, rest);
    var s := piece + [c] + rest;
    assert s[..|piece|] == piece && s[|piece| + 1..] == rest;
  }
}
