/** Character classes of HTTP fields, over byte values and code points alike. */
module HttpText {
  type Byte = b: int | 0 <= b < 256

  const HTAB: Byte := 9
  const LF: Byte := 10
  const CR: Byte := 13
  const SPACE: Byte := 32
  const CRLF: seq<Byte> := [CR, LF]

  predicate IsDigit(c: int) { 48 <= c <= 57 }

  predicate IsUpper(c: int) { 65 <= c <= 90 }

  predicate IsLower(c: int) { 97 <= c <= 122 }

  predicate IsAlphanumeric(c: int) { IsDigit(c) || IsUpper(c) || IsLower(c) }

  /** `!#$%&'*+-.^_`|~`, the punctuation of an RFC 9110 token. */
  predicate IsTokenPunctuation(c: int) {
    c == 33 || 35 <= c <= 39 || c == 42 || c == 43 || c == 45 || c == 46 || c == 94 || c == 95 || c == 96 || c == 124 || c == 126
  }

  predicate IsTokenCode(c: int) { IsAlphanumeric(c) || IsTokenPunctuation(c) }

  /** A control character other than a tab: never part of a field value or a chunk extension. */
  predicate IsForbiddenControl(c: int) { (c < 32 && c != 9) || c == 127 }

  predicate IsHttpToken(s: seq<Byte>) {
    s != [] && forall i :: 0 <= i < |s| ==> IsTokenCode(s[i])
  }

  predicate InvalidHeaderValue(s: seq<Byte>) {
    exists i :: 0 <= i < |s| && IsForbiddenControl(s[i])
  }

  predicate IsContinuation(b: Byte) { 128 <= b < 192 }

  /** Well-formed UTF-8: no overlong forms, surrogates or values past U+10FFFF. */
  predicate IsUtf8(s: seq<Byte>) {
    if s == [] then true
    else if s[0] < 128 then IsUtf8(s[1..])
    else if 194 <= s[0] < 224 then |s| >= 2 && IsContinuation(s[1]) && IsUtf8(s[2..])
    else if 224 <= s[0] < 240 then
      && |s| >= 3 && IsContinuation(s[1]) && IsContinuation(s[2])
      && (s[0] == 224 ==> s[1] >= 160) && (s[0] == 237 ==> s[1] < 160)
      && IsUtf8(s[3..])
    else if 240 <= s[0] < 245 then
      && |s| >= 4 && IsContinuation(s[1]) && IsContinuation(s[2]) && IsContinuation(s[3])
      && (s[0] == 240 ==> s[1] >= 144) && (s[0] == 244 ==> s[1] < 144)
      && IsUtf8(s[4..])
    else false
  }

  /** The first index holding `b`, or the length when there is none. */
  function IndexOf(s: seq<Byte>, b: Byte): (i: nat)
    ensures i <= |s| && b !in s[..i] && (i < |s| ==> s[i] == b)
    ensures i == |s| <==> b !in s
  {
    if s == [] then 0
    else if s[0] == b then 0
    else
      var rest := IndexOf(s[1..], b);
      assert s[..1 + rest] == [s[0]] + s[1..][..rest];
      1 + rest
  }

  lemma IndexOfUnique(s: seq<Byte>, b: Byte, i: nat)
    requires i < |s| && s[i] == b && b !in s[..i]
    ensures IndexOf(s, b) == i
  {
    assert forall k :: 0 <= k < i ==> s[..i][k] == s[k];
    var j := IndexOf(s, b);
    assert forall k :: 0 <= k < j ==> s[..j][k] == s[k];
  }
}
