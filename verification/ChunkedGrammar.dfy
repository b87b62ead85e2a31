/**
 * `Transfer-Encoding: chunked` request bodies (section 7.1 of RFC 9112) as one
 * whole-string parse, and the proxy's own framing of what was parsed.
 */
module ChunkedGrammar {
  import opened Common
  import opened HttpText

  const MAX_CHUNK_LINE_BYTES: nat := 4 * 1024
  const MAX_CHUNK_TRAILER_BYTES: nat := 8 * 1024
  const FINAL_CHUNK: seq<Byte> := [48, CR, LF, CR, LF]

  // ---- Lines and chunk sizes ----

  datatype Line = Line(text: seq<Byte>, rest: seq<Byte>)

  /** The CRLF-terminated line at the head of `wire`, when it is complete, short enough and holds no bare CR. */
  function FirstLine(wire: seq<Byte>, max: nat): (line: Option<Line>)
    ensures line.Some? ==>
      && wire == line.value.text + CRLF + line.value.rest
      && |line.value.text| <= max
      && CR !in line.value.text && LF !in line.value.text
  {
    var end := IndexOf(wire, LF);
    if end == |wire| || end == 0 || wire[end - 1] != CR then None
    else if end - 1 > max || CR in wire[..end - 1] then None
    else Some(Line(wire[..end - 1], wire[end + 1..]))
  }

  predicate IsHexDigit(c: int) { IsDigit(c) || 65 <= c <= 70 || 97 <= c <= 102 }

  function DigitsEnd(line: seq<Byte>): (end: nat)
    ensures end <= |line|
    ensures forall i :: 0 <= i < end ==> IsHexDigit(line[i])
    ensures end < |line| ==> !IsHexDigit(line[end])
  {
    if line == [] || !IsHexDigit(line[0]) then 0 else 1 + DigitsEnd(line[1..])
  }

  function HexDigitValue(c: int): nat
    requires IsHexDigit(c)
  {
    if IsDigit(c) then c - 48 else if c <= 70 then c - 55 else c - 87
  }

  function HexValue(digits: seq<Byte>): nat
    requires forall i :: 0 <= i < |digits| ==> IsHexDigit(digits[i])
  {
    if digits == [] then 0
    else HexValue(digits[..|digits| - 1]) * 16 + HexDigitValue(digits[|digits| - 1])
  }

  function BlanksEnd(s: seq<Byte>): (end: nat)
    ensures end <= |s|
    ensures forall i :: 0 <= i < end ==> s[i] == SPACE || s[i] == HTAB
    ensures end < |s| ==> s[end] != SPACE && s[end] != HTAB
  {
    if s == [] || (s[0] != SPACE && s[0] != HTAB) then 0 else 1 + BlanksEnd(s[1..])
  }

  /** The value of the hexadecimal digits; what follows them must be blanks and an extension, and is dropped. */
  function ParseChunkSize(line: seq<Byte>): Option<nat> {
    var end := DigitsEnd(line);
    var digits, after := line[..end], line[end..];
    if end == 0 || end > 16 then None
    else if after != [] && !IsExtension(after[BlanksEnd(after)..]) then None
    else Some(HexValue(digits))
  }

  predicate IsExtension(s: seq<Byte>) {
    s != [] && s[0] == 59 && forall i :: 0 <= i < |s| ==> !IsForbiddenControl(s[i])
  }

  predicate ValidTrailer(line: seq<Byte>) {
    var colon := IndexOf(line, 58);
    && IsUtf8(line)
    && colon < |line|
    && IsHttpToken(line[..colon])
    && !InvalidHeaderValue(line[colon + 1..])
  }

  // ---- The whole-string parse ----

  datatype End =
    | Complete(rest: seq<Byte>)
    | Broken
    | BrokenIn(size: nat, data: seq<Byte>)

  /** The complete chunks, and how the body ends: with `rest` after it, at a framing error, or inside a chunk. */
  datatype Parse = Parse(chunks: seq<seq<Byte>>, end: End)

  /** What follows the trailer section, if it is valid. */
  function AfterTrailers(wire: seq<Byte>, trailerBytes: nat): Option<seq<Byte>>
    decreases |wire|
  {
    match FirstLine(wire, MAX_CHUNK_TRAILER_BYTES)
    case None => None
    case Some(Line(text, rest)) =>
      if text == [] then Some(rest)
      else if trailerBytes + |text| + 2 > MAX_CHUNK_TRAILER_BYTES || !ValidTrailer(text) then None
      else AfterTrailers(rest, trailerBytes + |text| + 2)
  }

  datatype Item =
    | Malformed
    | CutShort(size: nat, data: seq<Byte>)
    | Final(rest: seq<Byte>)
    | Chunk(data: seq<Byte>, rest: seq<Byte>)

  /** The chunk (or last-chunk line) at the head of `wire`, when at most `room` bytes of data are still allowed. */
  function NextItem(wire: seq<Byte>, room: nat): (item: Item)
    ensures item.Final? ==> |item.rest| < |wire|
    ensures item.Chunk? ==> |item.rest| < |wire| && 0 < |item.data| <= room
  {
    match FirstLine(wire, MAX_CHUNK_LINE_BYTES)
    case None => Malformed
    case Some(Line(text, rest)) =>
      match ParseChunkSize(text)
      case None => Malformed
      case Some(size) =>
        if size == 0 then Final(rest)
        else if size > room then Malformed
        else if |rest| < size then CutShort(size, rest)
        else
          match FirstLine(rest[size..], 0)
          case None => CutShort(size, rest[..size])
          case Some(Line(_, after)) => Chunk(rest[..size], after)
  }

  /** The parse of a body of at most `room` bytes of data. */
  function ParseBody(wire: seq<Byte>, room: nat): Parse
    decreases |wire|
  {
    match NextItem(wire, room)
    case Malformed => Parse([], Broken)
    case CutShort(size, data) => Parse([], BrokenIn(size, data))
    case Final(rest) =>
      (match AfterTrailers(rest, 0)
       case None => Parse([], Broken)
       case Some(after) => Parse([], Complete(after)))
    case Chunk(data, rest) =>
      var tail := ParseBody(rest, room - |data|);
      Parse([data] + tail.chunks, tail.end)
  }

  // ---- The proxy's framing ----

  function HexDigit(d: nat): Byte
    requires d < 16
  {
    if d < 10 then 48 + d else 87 + d
  }

  /** Lower-case hexadecimal without leading zeros. */
  function Hex(n: nat): seq<Byte> {
    if n < 16 then [HexDigit(n)] else Hex(n / 16) + [HexDigit(n % 16)]
  }

  function FrameChunk(data: seq<Byte>): seq<Byte> {
    Hex(|data|) + CRLF + data + CRLF
  }

  function FrameChunks(chunks: seq<seq<Byte>>): seq<Byte> {
    if chunks == [] then [] else FrameChunk(chunks[0]) + FrameChunks(chunks[1..])
  }

  lemma Regroup(a: seq<Byte>, b: seq<Byte>, c: seq<Byte>)
    ensures a + (b + c) == (a + b) + c
  {
  }

  lemma FirstFrame(chunks: seq<seq<Byte>>)
    requires chunks != []
    ensures FrameChunks(chunks) == FrameChunk(chunks[0]) + FrameChunks(chunks[1..])
  {
  }

  lemma {:induction false} FrameChunksAppend(left: seq<seq<Byte>>, right: seq<seq<Byte>>)
    ensures FrameChunks(left + right) == FrameChunks(left) + FrameChunks(right)
  {
    if left == [] {
      assert left + right == right;
    } else {
      hide FrameChunk, FrameChunks;
      FrameChunksAppend(left[1..], right);
      assert (left + right)[0] == left[0] && (left + right)[1..] == left[1..] + right;
      FirstFrame(left);
      FirstFrame(left + right);
      Regroup(FrameChunk(left[0]), FrameChunks(left[1..]), FrameChunks(right));
    }
  }

  lemma FrameOneMore(done: seq<seq<Byte>>, chunk: seq<Byte>)
    ensures FrameChunks(done + [chunk]) == FrameChunks(done) + FrameChunk(chunk)
  {
    FrameChunksAppend(done, [chunk]);
    assert [chunk][1..] == [];
    assert FrameChunks([chunk]) == FrameChunk(chunk);
  }

  /** The canonical chunked encoding. */
  function Encode(chunks: seq<seq<Byte>>): seq<Byte> {
    FrameChunks(chunks) + FINAL_CHUNK
  }

  function Ending(end: End): seq<Byte> {
    match end
    case Complete(_) => FINAL_CHUNK
    case Broken => []
    case BrokenIn(size, data) => Hex(size) + CRLF + data
  }

  /** What the upstream receives for a parse. */
  function Upstream(parse: Parse): seq<Byte> {
    FrameChunks(parse.chunks) + Ending(parse.end)
  }

  function TotalData(chunks: seq<seq<Byte>>): nat {
    if chunks == [] then 0 else |chunks[0]| + TotalData(chunks[1..])
  }
}
