/** What the upstream may conclude from the bytes it receives. */
module ChunkedCanonical {
  import opened Common
  import opened HttpText
  import opened ChunkedGrammar

  const MAX_U64: nat := 0xFFFF_FFFF_FFFF_FFFF

  // ---- Reading back one line and one size ----

  lemma LineReadsBack(text: seq<Byte>, rest: seq<Byte>, max: nat)
    requires CR !in text && LF !in text && |text| <= max
    ensures FirstLine(text + CRLF + rest, max) == Some(Line(text, rest))
  {
    var wire := text + CRLF + rest;
    var end := |text| + 1;
    assert wire[end] == LF && wire[end - 1] == CR;
    assert wire[..end] == text + [CR];
    IndexOfUnique(wire, LF, end);
    assert wire[..end - 1] == text && wire[end + 1..] == rest;
  }

  lemma {:induction false} HexIsDigits(n: nat)
    ensures |Hex(n)| > 0 && forall i :: 0 <= i < |Hex(n)| ==> IsHexDigit(Hex(n)[i])
  {
    if n >= 16 {
      HexIsDigits(n / 16);
    }
  }

  lemma {:induction false} HexReadsBack(n: nat)
    ensures forall i :: 0 <= i < |Hex(n)| ==> IsHexDigit(Hex(n)[i])
    ensures HexValue(Hex(n)) == n
  {
    HexIsDigits(n);
    if n >= 16 {
      HexReadsBack(n / 16);
      assert Hex(n)[..|Hex(n)| - 1] == Hex(n / 16);
      assert HexDigitValue(HexDigit(n % 16)) == n % 16;
    } else {
      assert Hex(n)[..0] == [];
    }
  }

  function Power16(k: nat): nat {
    if k == 0 then 1 else 16 * Power16(k - 1)
  }

  lemma {:induction false} HexLength(n: nat, k: nat)
    requires 0 < k && n < Power16(k)
    ensures |Hex(n)| <= k
  {
    if n >= 16 {
      assert Power16(k) == 16 * Power16(k - 1);
      assert k > 1 by {
        assert Power16(1) == 16 * Power16(0);
      }
      HexLength(n / 16, k - 1);
    }
  }

  lemma {:induction false} AllDigits(line: seq<Byte>)
    requires forall i :: 0 <= i < |line| ==> IsHexDigit(line[i])
    ensures DigitsEnd(line) == |line|
  {
    if line != [] {
      AllDigits(line[1..]);
    }
  }

  lemma SizeReadsBack(n: nat)
    requires n <= MAX_U64
    ensures ParseChunkSize(Hex(n)) == Some(n)
    ensures |Hex(n)| <= 16
  {
    HexReadsBack(n);
    AllDigits(Hex(n));
    assert Hex(n)[..|Hex(n)|] == Hex(n);
    assert Power16(16) == MAX_U64 + 1 by {
      assert Power16(4) == 65536;
      assert Power16(8) == 65536 * 65536;
      assert Power16(12) == 65536 * 65536 * 65536;
    }
    HexLength(n, 16);
  }

  /** A hexadecimal size is read back as itself or, past 16 digits, refused. */
  lemma SizeNeverChanges(n: nat)
    ensures ParseChunkSize(Hex(n)) == Some(n) || ParseChunkSize(Hex(n)) == None
    ensures CR !in Hex(n) && LF !in Hex(n)
  {
    HexReadsBack(n);
    AllDigits(Hex(n));
    assert Hex(n)[..|Hex(n)|] == Hex(n);
  }

  // ---- Decoding what was encoded ----

  predicate NonEmpty(chunks: seq<seq<Byte>>) {
    forall i :: 0 <= i < |chunks| ==> chunks[i] != []
  }

  lemma FrameReadsBack(data: seq<Byte>, rest: seq<Byte>, room: nat)
    requires 0 < |data| <= room && |data| <= MAX_U64
    ensures NextItem(FrameChunk(data) + rest, room) == Chunk(data, rest)
  {
    hide FirstLine, Hex, ParseChunkSize;
    var size := Hex(|data|);
    SizeReadsBack(|data|);
    SizeNeverChanges(|data|);
    var after := data + CRLF + rest;
    assert FrameChunk(data) + rest == size + CRLF + after;
    LineReadsBack(size, after, MAX_CHUNK_LINE_BYTES);
    assert after[..|data|] == data;
    assert after[|data|..] == [] + CRLF + rest;
    LineReadsBack([], rest, 0);
  }

  lemma FinalReadsBack(room: nat)
    ensures ParseBody(FINAL_CHUNK, room) == Parse([], Complete([]))
  {
    hide FirstLine, IsUtf8, ValidTrailer, IsExtension;
    assert FINAL_CHUNK == [48] + CRLF + CRLF;
    LineReadsBack([48], CRLF, MAX_CHUNK_LINE_BYTES);
    assert DigitsEnd([48]) == 1;
    assert [48][..1] == [48] && [48][..0] == [];
    assert ParseChunkSize([48]) == Some(0);
    assert CRLF == [] + CRLF + [];
    LineReadsBack([], [], MAX_CHUNK_TRAILER_BYTES);
  }

  /** Decoding inverts encoding for every list of non-empty chunks within the body limit. */
  lemma {:induction false} DecodeEncode(chunks: seq<seq<Byte>>, room: nat)
    requires NonEmpty(chunks) && TotalData(chunks) <= room <= MAX_U64
    ensures ParseBody(Encode(chunks), room) == Parse(chunks, Complete([]))
  {
    hide NextItem, AfterTrailers, Hex;
    if chunks == [] {
      FinalReadsBack(room);
      assert Encode(chunks) == FINAL_CHUNK;
    } else {
      var data, rest := chunks[0], chunks[1..];
      DecodeEncode(rest, room - |data|);
      FrameReadsBack(data, Encode(rest), room);
      assert Encode(chunks) == FrameChunk(data) + Encode(rest);
      assert [data] + rest == chunks;
    }
  }

  lemma {:induction false} ParsedChunks(wire: seq<Byte>, room: nat)
    ensures NonEmpty(ParseBody(wire, room).chunks) && TotalData(ParseBody(wire, room).chunks) <= room
    decreases |wire|
  {
    hide AfterTrailers, ParseChunkSize, FirstLine;
    var item := NextItem(wire, room);
    if item.Chunk? {
      ParsedChunks(item.rest, room - |item.data|);
      var tail := ParseBody(item.rest, room - |item.data|).chunks;
      assert ([item.data] + tail)[1..] == tail;
    }
  }

  /**
   * An accepted body reaches the upstream as the canonical encoding of exactly
   * the decoded chunks: it decodes to the same data, within the limit, and
   * re-frames to itself.
   */
  lemma AcceptedIsCanonical(wire: seq<Byte>, room: nat)
    requires room <= MAX_U64 && ParseBody(wire, room).end.Complete?
    ensures
      var parse := ParseBody(wire, room);
      var again := ParseBody(Upstream(parse), room);
      && Upstream(parse) == Encode(parse.chunks)
      && TotalData(parse.chunks) <= room
      && again == Parse(parse.chunks, Complete([]))
      && Upstream(again) == Upstream(parse)
  {
    ParsedChunks(wire, room);
    DecodeEncode(ParseBody(wire, room).chunks, room);
  }

  // ---- A rejected body is never a complete one ----

  lemma NoLineWithoutNewline(wire: seq<Byte>, max: nat)
    requires LF !in wire
    ensures FirstLine(wire, max) == None
  {
  }

  /** A proper prefix of a framed chunk yields no item. */
  lemma PartOfFrame(data: seq<Byte>, p: seq<Byte>, room: nat)
    requires data != [] && p <= FrameChunk(data) && |p| < |FrameChunk(data)|
    ensures NextItem(p, room).Malformed? || NextItem(p, room).CutShort?
  {
    hide FirstLine, Hex, ParseChunkSize;
    var size := Hex(|data|);
    SizeNeverChanges(|data|);
    if |p| < |size| + 2 {
      assert p == (size + [CR])[..|p|];
      NoLineWithoutNewline(p, MAX_CHUNK_LINE_BYTES);
    } else {
      var rest := p[|size| + 2..];
      assert p == size + CRLF + rest;
      assert rest <= data + CRLF;
      if |size| <= MAX_CHUNK_LINE_BYTES {
        LineReadsBack(size, rest, MAX_CHUNK_LINE_BYTES);
        if |data| <= |rest| {
          assert rest[|data|..] == [CR][..|rest| - |data|];
          NoLineWithoutNewline(rest[|data|..], 0);
        }
      } else {
        LineTooLong(size, rest);
      }
    }
  }

  lemma LineTooLong(text: seq<Byte>, rest: seq<Byte>)
    requires CR !in text && LF !in text && |text| > MAX_CHUNK_LINE_BYTES
    ensures FirstLine(text + CRLF + rest, MAX_CHUNK_LINE_BYTES) == None
  {
    var wire := text + CRLF + rest;
    assert wire[|text| + 1] == LF;
    assert wire[..|text| + 1] == text + [CR];
    IndexOfUnique(wire, LF, |text| + 1);
  }

  /** A whole frame yields its chunk, or nothing when it is over the limits. */
  lemma WholeFrame(data: seq<Byte>, rest: seq<Byte>, room: nat)
    requires data != []
    ensures
      var item := NextItem(FrameChunk(data) + rest, room);
      item == Malformed || item == Chunk(data, rest)
  {
    hide FirstLine, Hex, ParseChunkSize;
    var size := Hex(|data|);
    SizeNeverChanges(|data|);
    var after := data + CRLF + rest;
    assert FrameChunk(data) + rest == size + CRLF + after;
    if |size| <= MAX_CHUNK_LINE_BYTES {
      LineReadsBack(size, after, MAX_CHUNK_LINE_BYTES);
      assert after[..|data|] == data;
      assert after[|data|..] == [] + CRLF + rest;
      LineReadsBack([], rest, 0);
    } else {
      LineTooLong(size, after);
    }
  }

  lemma {:induction false} PrefixOfFramesIsIncomplete(chunks: seq<seq<Byte>>, p: seq<Byte>, room: nat)
    requires NonEmpty(chunks) && p <= FrameChunks(chunks)
    ensures !ParseBody(p, room).end.Complete?
    decreases |chunks|
  {
    hide FrameChunk, FirstLine, ParseChunkSize, AfterTrailers;
    if chunks == [] {
      NoLineWithoutNewline(p, MAX_CHUNK_LINE_BYTES);
    } else {
      hide NextItem;
      var frame := FrameChunk(chunks[0]);
      if |p| < |frame| {
        assert p <= frame;
        PartOfFrame(chunks[0], p, room);
      } else {
        var rest := p[|frame|..];
        assert p == frame + rest;
        WholeFrame(chunks[0], rest, room);
        if NextItem(p, room).Chunk? {
          assert rest <= FrameChunks(chunks[1..]);
          PrefixOfFramesIsIncomplete(chunks[1..], rest, room - |chunks[0]|);
        }
      }
    }
  }

  function Padding(n: nat): (zeros: seq<Byte>)
    ensures |zeros| == n
  {
    if n == 0 then [] else [0] + Padding(n - 1)
  }

  lemma {:induction false} BrokenEnds(wire: seq<Byte>, room: nat)
    ensures
      var end := ParseBody(wire, room).end;
      end.BrokenIn? ==> 0 < end.size && |end.data| <= end.size
    decreases |wire|
  {
    hide AfterTrailers, ParseChunkSize, FirstLine;
    var item := NextItem(wire, room);
    if item.Chunk? {
      BrokenEnds(item.rest, room - |item.data|);
    }
  }

  /**
   * Of a rejected body no prefix of what was written upstream parses, under any limit, even when the chunk data itself
   * spells a final chunk.
   */
  lemma RejectedIsIncomplete(wire: seq<Byte>, room: nat, p: seq<Byte>, upstreamRoom: nat)
    requires !ParseBody(wire, room).end.Complete? && p <= Upstream(ParseBody(wire, room))
    ensures !ParseBody(p, upstreamRoom).end.Complete?
  {
    hide ParseBody, Hex, FrameChunks;
    var parse := ParseBody(wire, room);
    ParsedChunks(wire, room);
    BrokenEnds(wire, room);
    if parse.end.BrokenIn? {
      var whole := parse.end.data + Padding(parse.end.size - |parse.end.data|);
      FrameOneMore(parse.chunks, whole);
      assert FrameChunk(whole) ==
        Hex(parse.end.size) + CRLF + parse.end.data + (Padding(parse.end.size - |parse.end.data|) + CRLF);
      assert Upstream(parse) <= FrameChunks(parse.chunks + [whole]);
      PrefixOfFramesIsIncomplete(parse.chunks + [whole], p, upstreamRoom);
    } else {
      PrefixOfFramesIsIncomplete(parse.chunks, p, upstreamRoom);
    }
  }

  /** The same for a complete body refused for the bytes that followed it. */
  lemma RefusedFollowUpIsIncomplete(wire: seq<Byte>, room: nat, p: seq<Byte>, upstreamRoom: nat)
    requires p <= FrameChunks(ParseBody(wire, room).chunks)
    ensures !ParseBody(p, upstreamRoom).end.Complete?
  {
    ParsedChunks(wire, room);
    PrefixOfFramesIsIncomplete(ParseBody(wire, room).chunks, p, upstreamRoom);
  }
}
