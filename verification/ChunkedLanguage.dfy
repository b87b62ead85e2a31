/**
 * The chunked grammar of section 7.1 of RFC 9112, with the proxy's limits, as
 * messages and their spelling: the whole-string parse accepts exactly the
 * spellings of well-formed messages.
 */
module ChunkedLanguage {
  import opened Common
  import opened HttpText
  import opened ChunkedGrammar
  import opened ChunkedCanonical

  /** A size line in its three parts: hexadecimal digits, blanks, extension. */
  datatype SizeLine = SizeLine(digits: seq<Byte>, blanks: seq<Byte>, extension: seq<Byte>)
  {
    function Spelling(): seq<Byte> { digits + blanks + extension }

    predicate WellFormed() {
      && 1 <= |digits| <= 16
      && (forall i :: 0 <= i < |digits| ==> IsHexDigit(digits[i]))
      && (forall i :: 0 <= i < |blanks| ==> blanks[i] == SPACE || blanks[i] == HTAB)
      && (if extension == [] then blanks == [] else IsExtension(extension))
      && |digits| + |blanks| + |extension| <= MAX_CHUNK_LINE_BYTES
    }

    function Size(): nat
      requires WellFormed()
    {
      HexValue(digits)
    }
  }

  datatype SentChunk = SentChunk(line: SizeLine, data: seq<Byte>)

  datatype Message = Message(chunks: seq<SentChunk>, last: SizeLine, trailers: seq<seq<Byte>>)

  function SpellTrailers(trailers: seq<seq<Byte>>): seq<Byte> {
    if trailers == [] then CRLF else trailers[0] + CRLF + SpellTrailers(trailers[1..])
  }

  function Spell(m: Message): seq<Byte>
    decreases |m.chunks|
  {
    if m.chunks == [] then m.last.Spelling() + CRLF + SpellTrailers(m.trailers)
    else m.chunks[0].line.Spelling() + CRLF + m.chunks[0].data + CRLF + Spell(m.(chunks := m.chunks[1..]))
  }

  function TrailerBytes(trailers: seq<seq<Byte>>): nat {
    if trailers == [] then 0 else |trailers[0]| + 2 + TrailerBytes(trailers[1..])
  }

  predicate WellFormedTrailers(trailers: seq<seq<Byte>>, spent: nat) {
    && (forall i :: 0 <= i < |trailers| ==> trailers[i] != [] && ValidTrailer(trailers[i]))
    && (trailers != [] ==> spent + TrailerBytes(trailers) <= MAX_CHUNK_TRAILER_BYTES)
  }

  predicate WellFormed(m: Message, room: nat) {
    && (forall i :: 0 <= i < |m.chunks| ==>
          m.chunks[i].line.WellFormed() && 0 < |m.chunks[i].data| == m.chunks[i].line.Size())
    && TotalData(Data(m.chunks)) <= room
    && m.last.WellFormed() && m.last.Size() == 0
    && WellFormedTrailers(m.trailers, 0)
  }

  function Data(chunks: seq<SentChunk>): (data: seq<seq<Byte>>)
    ensures |data| == |chunks|
  {
    if chunks == [] then [] else [chunks[0].data] + Data(chunks[1..])
  }

  // ---- Size lines ----

  lemma {:induction false} DigitsEndAt(digits: seq<Byte>, rest: seq<Byte>)
    requires forall i :: 0 <= i < |digits| ==> IsHexDigit(digits[i])
    requires rest != [] ==> !IsHexDigit(rest[0])
    ensures DigitsEnd(digits + rest) == |digits|
  {
    if digits == [] {
      assert digits + rest == rest;
    } else {
      assert (digits + rest)[1..] == digits[1..] + rest;
      DigitsEndAt(digits[1..], rest);
    }
  }

  lemma {:induction false} BlanksEndAt(blanks: seq<Byte>, rest: seq<Byte>)
    requires forall i :: 0 <= i < |blanks| ==> blanks[i] == SPACE || blanks[i] == HTAB
    requires rest != [] ==> rest[0] != SPACE && rest[0] != HTAB
    ensures BlanksEnd(blanks + rest) == |blanks|
  {
    if blanks == [] {
      assert blanks + rest == rest;
    } else {
      assert (blanks + rest)[1..] == blanks[1..] + rest;
      BlanksEndAt(blanks[1..], rest);
    }
  }

  lemma NoBreaks(line: SizeLine)
    requires line.WellFormed()
    ensures CR !in line.Spelling() && LF !in line.Spelling()
  {
  }

  lemma SizeLineParses(line: SizeLine)
    requires line.WellFormed()
    ensures ParseChunkSize(line.Spelling()) == Some(line.Size())
  {
    var after := line.blanks + line.extension;
    var text := line.Spelling();
    assert text == line.digits + after;
    DigitsEndAt(line.digits, after);
    BlanksEndAt(line.blanks, line.extension);
    assert text[..|line.digits|] == line.digits && text[|line.digits|..] == after;
    assert after[|line.blanks|..] == line.extension;
  }

  lemma ParsedSizeLine(text: seq<Byte>) returns (line: SizeLine)
    requires |text| <= MAX_CHUNK_LINE_BYTES && ParseChunkSize(text).Some?
    ensures line.WellFormed() && line.Spelling() == text && ParseChunkSize(text) == Some(line.Size())
  {
    var end := DigitsEnd(text);
    var after := text[end..];
    if after == [] {
      line := SizeLine(text[..end], [], []);
    } else {
      var blanks := BlanksEnd(after);
      line := SizeLine(text[..end], after[..blanks], after[blanks..]);
      assert after == after[..blanks] + after[blanks..];
    }
    assert text == text[..end] + after;
  }

  // ---- Trailers ----

  lemma TrailerHasNoBreaks(line: seq<Byte>)
    requires ValidTrailer(line)
    ensures CR !in line && LF !in line
  {
    var colon := IndexOf(line, 58);
    forall i | 0 <= i < |line|
      ensures line[i] != CR && line[i] != LF
    {
      if i < colon {
        assert IsTokenCode(line[..colon][i]);
      } else if colon < i {
        assert line[i] == line[colon + 1..][i - colon - 1];
      }
    }
  }

  lemma {:induction false} TrailersParse(trailers: seq<seq<Byte>>, rest: seq<Byte>, spent: nat)
    requires WellFormedTrailers(trailers, spent)
    ensures AfterTrailers(SpellTrailers(trailers) + rest, spent) == Some(rest)
    decreases |trailers|
  {
    hide FirstLine, ValidTrailer;
    var wire := SpellTrailers(trailers) + rest;
    if trailers == [] {
      assert wire == [] + CRLF + rest;
      LineReadsBack([], rest, MAX_CHUNK_TRAILER_BYTES);
    } else {
      var text, more := trailers[0], SpellTrailers(trailers[1..]) + rest;
      assert wire == text + CRLF + more;
      TrailerHasNoBreaks(text);
      LineReadsBack(text, more, MAX_CHUNK_TRAILER_BYTES);
      TrailersParse(trailers[1..], rest, spent + |text| + 2);
    }
  }

  lemma {:induction false} ParsedTrailers(wire: seq<Byte>, spent: nat) returns (trailers: seq<seq<Byte>>)
    requires AfterTrailers(wire, spent).Some?
    ensures WellFormedTrailers(trailers, spent)
    ensures wire == SpellTrailers(trailers) + AfterTrailers(wire, spent).value
    decreases |wire|
  {
    hide FirstLine, ValidTrailer;
    var line := FirstLine(wire, MAX_CHUNK_TRAILER_BYTES).value;
    if line.text == [] {
      trailers := [];
    } else {
      var more := ParsedTrailers(line.rest, spent + |line.text| + 2);
      trailers := [line.text] + more;
      assert trailers[1..] == more;
      assert TrailerBytes(trailers) == |line.text| + 2 + TrailerBytes(more);
      assert forall i :: 1 <= i < |trailers| ==> trailers[i] == more[i - 1];
    }
  }

  // ---- Bodies ----

  lemma ChunkParses(c: SentChunk, more: seq<Byte>, room: nat)
    requires c.line.WellFormed() && 0 < |c.data| == c.line.Size() && |c.data| <= room
    ensures NextItem(c.line.Spelling() + CRLF + (c.data + CRLF + more), room) == Chunk(c.data, more)
  {
    hide FirstLine, ParseChunkSize;
    NoBreaks(c.line);
    SizeLineParses(c.line);
    var after := c.data + CRLF + more;
    LineReadsBack(c.line.Spelling(), after, MAX_CHUNK_LINE_BYTES);
    assert after[..|c.data|] == c.data && after[|c.data|..] == [] + CRLF + more;
    LineReadsBack([], more, 0);
  }

  lemma LastParses(last: SizeLine, more: seq<Byte>, room: nat)
    requires last.WellFormed() && last.Size() == 0
    ensures NextItem(last.Spelling() + CRLF + more, room) == Final(more)
  {
    hide FirstLine, ParseChunkSize;
    NoBreaks(last);
    SizeLineParses(last);
    LineReadsBack(last.Spelling(), more, MAX_CHUNK_LINE_BYTES);
  }

  lemma {:induction false} SpellingParses(m: Message, rest: seq<Byte>, room: nat)
    requires WellFormed(m, room)
    ensures ParseBody(Spell(m) + rest, room) == Parse(Data(m.chunks), Complete(rest))
    decreases |m.chunks|
  {
    hide NextItem, AfterTrailers, SizeLine.Spelling, SizeLine.WellFormed, ValidTrailer;
    if m.chunks == [] {
      var more := SpellTrailers(m.trailers) + rest;
      assert Spell(m) + rest == m.last.Spelling() + CRLF + more;
      LastParses(m.last, more, room);
      TrailersParse(m.trailers, rest, 0);
    } else {
      var c, tail := m.chunks[0], m.(chunks := m.chunks[1..]);
      SpellingParses(tail, rest, room - |c.data|);
      var more := Spell(tail) + rest;
      assert Spell(m) + rest == c.line.Spelling() + CRLF + (c.data + CRLF + more);
      ChunkParses(c, more, room);
    }
  }

  lemma ParsedChunk(wire: seq<Byte>, room: nat) returns (c: SentChunk)
    requires NextItem(wire, room).Chunk?
    ensures c.line.WellFormed() && 0 < |c.data| == c.line.Size()
    ensures c.data == NextItem(wire, room).data
    ensures wire == c.line.Spelling() + CRLF + c.data + CRLF + NextItem(wire, room).rest
  {
    hide FirstLine, ParseChunkSize, SizeLine.Spelling, SizeLine.WellFormed;
    var line := FirstLine(wire, MAX_CHUNK_LINE_BYTES).value;
    var size := ParsedSizeLine(line.text);
    var data := NextItem(wire, room).data;
    c := SentChunk(size, data);
    var after := line.rest[|data|..];
    assert line.rest == data + after;
    var close := FirstLine(after, 0).value;
    assert close.text == [];
    assert after == CRLF + close.rest;
  }

  lemma ParsedLast(wire: seq<Byte>, room: nat) returns (last: SizeLine)
    requires NextItem(wire, room).Final?
    ensures last.WellFormed() && last.Size() == 0 && wire == last.Spelling() + CRLF + NextItem(wire, room).rest
  {
    hide FirstLine, ParseChunkSize, SizeLine.Spelling, SizeLine.WellFormed;
    last := ParsedSizeLine(FirstLine(wire, MAX_CHUNK_LINE_BYTES).value.text);
  }

  lemma {:induction false} ParsedMessage(wire: seq<Byte>, room: nat) returns (m: Message)
    requires ParseBody(wire, room).end.Complete?
    ensures WellFormed(m, room)
    ensures Data(m.chunks) == ParseBody(wire, room).chunks
    ensures wire == Spell(m) + ParseBody(wire, room).end.rest
    decreases |wire|
  {
    hide NextItem, AfterTrailers, SizeLine.Spelling, SizeLine.WellFormed, ValidTrailer;
    var item := NextItem(wire, room);
    if item.Final? {
      var last := ParsedLast(wire, room);
      var trailers := ParsedTrailers(item.rest, 0);
      m := Message([], last, trailers);
    } else {
      var c := ParsedChunk(wire, room);
      var tail := ParsedMessage(item.rest, room - |item.data|);
      m := tail.(chunks := [c] + tail.chunks);
      assert m.chunks[1..] == tail.chunks;
      assert m.(chunks := tail.chunks) == tail;
      assert Data(m.chunks) == [c.data] + Data(tail.chunks);
      assert Data(m.chunks)[1..] == Data(tail.chunks);
    }
  }

  /** The parse accepts exactly the spellings of well-formed messages, and decodes their chunks. */
  lemma AcceptsExactlyTheGrammar(wire: seq<Byte>, room: nat, chunks: seq<seq<Byte>>, rest: seq<Byte>)
    ensures ParseBody(wire, room) == Parse(chunks, Complete(rest)) <==>
      exists m :: WellFormed(m, room) && Data(m.chunks) == chunks && wire == Spell(m) + rest
  {
    hide WellFormed, ParseBody, Spell, Data;
    if ParseBody(wire, room) == Parse(chunks, Complete(rest)) {
      var m := ParsedMessage(wire, room);
    }
    forall m | WellFormed(m, room) && Data(m.chunks) == chunks && wire == Spell(m) + rest
      ensures ParseBody(wire, room) == Parse(chunks, Complete(rest))
    {
      SpellingParses(m, rest, room);
    }
  }
}
