/** The streaming re-framer: a buffer in front of a socket whose reads may split the wire anywhere. */
module ChunkedStream {
  import opened Common
  import opened HttpText
  import opened ChunkedGrammar

  function Concat(pieces: seq<seq<Byte>>): seq<Byte> {
    if pieces == [] then [] else pieces[0] + Concat(pieces[1..])
  }

  /** A line that did not end within `max` bytes of what is buffered is refused however it continues. */
  lemma TooLongAnyway(pending: seq<Byte>, more: seq<Byte>, max: nat)
    requires LF !in pending && |pending| > max + 1
    ensures FirstLine(pending + more, max) == None
  {
    var wire := pending + more;
    assert forall i :: 0 <= i < |pending| ==> wire[i] == pending[i];
  }

  lemma SameLineEnd(pending: seq<Byte>, more: seq<Byte>)
    requires LF in pending
    ensures IndexOf(pending + more, LF) == IndexOf(pending, LF) < |pending|
  {
    var end := IndexOf(pending, LF);
    assert (pending + more)[..end] == pending[..end];
    IndexOfUnique(pending + more, LF, end);
  }

  lemma SamePrefix(pending: seq<Byte>, more: seq<Byte>, n: nat)
    requires n <= |pending|
    ensures (pending + more)[..n] == pending[..n] && (n > 0 ==> (pending + more)[n - 1] == pending[n - 1])
  {
  }

  predicate EndsBadly(wire: seq<Byte>, end: nat, max: nat)
    requires end < |wire|
  {
    end == 0 || wire[end - 1] != CR || end - 1 > max || CR in wire[..end - 1]
  }

  lemma LineAt(wire: seq<Byte>, max: nat, end: nat)
    requires end < |wire| && IndexOf(wire, LF) == end
    ensures FirstLine(wire, max).None? <==> EndsBadly(wire, end, max)
    ensures FirstLine(wire, max).Some? ==>
      FirstLine(wire, max).value.text == wire[..end - 1] && FirstLine(wire, max).value.rest == wire[end + 1..]
  {
    hide IndexOf;
  }

  /** A line complete in the buffer is the line of the whole wire. */
  lemma LineOfAll(pending: seq<Byte>, more: seq<Byte>, max: nat)
    requires LF in pending
    ensures
      var end, buffered, whole := IndexOf(pending, LF), FirstLine(pending, max), FirstLine(pending + more, max);
      && end < |pending| && buffered.Some? == whole.Some?
      && (whole.Some? ==> whole.value.text == buffered.value.text && whole.value.rest == (pending + more)[end + 1..])
  {
    hide IndexOf, FirstLine;
    SameLineEnd(pending, more);
    var end := IndexOf(pending, LF);
    SamePrefix(pending, more, end);
    SamePrefix(pending, more, if end == 0 then 0 else end - 1);
    LineAt(pending, max, end);
    LineAt(pending + more, max, end);
  }

  lemma CopiedPrefix(upstream: seq<Byte>, wire: seq<Byte>, copied: nat, n: nat)
    requires copied + n <= |wire|
    ensures upstream + wire[..copied] + wire[copied..][..n] == upstream + wire[..copied + n]
    ensures wire[copied..][n..] == wire[copied + n..]
  {
    assert wire[..copied] + wire[copied..][..n] == wire[..copied + n];
  }

  lemma LineEndsInLastRead(pending: seq<Byte>, read: nat)
    requires read <= |pending| && LF !in pending[..|pending| - read]
    ensures IndexOf(pending, LF) >= |pending| - read
  {
    forall i | 0 <= i < |pending| - read
      ensures pending[i] != LF
    {
      assert pending[i] == pending[..|pending| - read][i];
    }
  }

  /** The checks on a buffered line; `end` is where its line feed is. */
  method CutLine(pending: seq<Byte>, max: nat) returns (text: Option<seq<Byte>>, end: nat)
    requires LF in pending
    ensures end == IndexOf(pending, LF) < |pending|
    ensures FirstLine(pending, max) == if text.None? then None else Some(Line(text.value, pending[end + 1..]))
  {
    end := IndexOf(pending, LF);
    if end == 0 || pending[end - 1] != CR {
      return None, end;
    }
    var line := pending[..end - 1];
    if |line| > max {
      return None, end;
    }
    if CR in line {
      return None, end;
    }
    return Some(line), end;
  }

  class Source {
    const socket: seq<seq<Byte>>
    var buffered: seq<Byte>
    var position: nat
    /** How many socket reads have been taken. */
    var taken: nat

    ghost predicate Valid()
      reads this
    {
      && position <= |buffered|
      && taken <= |socket|
      && forall i :: 0 <= i < |socket| ==> socket[i] != []
    }

    ghost function Pending(): seq<Byte>
      reads this
      requires Valid()
    {
      buffered[position..]
    }

    /** Everything not consumed yet, buffered or still to be read. */
    ghost function Remaining(): seq<Byte>
      reads this
      requires Valid()
    {
      Pending() + Concat(socket[taken..])
    }

    /** The source never reads before it must: part of the last read has been consumed. */
    ghost predicate Lazy()
      reads this
      requires Valid()
    {
      taken > 0 ==> |Pending()| < |socket[taken - 1]|
    }

    constructor (initial: seq<Byte>, socket: seq<seq<Byte>>)
      requires forall i :: 0 <= i < |socket| ==> socket[i] != []
      ensures Valid() && Lazy() && Remaining() == initial + Concat(socket) && Pending() == initial
      ensures this.socket == socket && taken == 0
    {
      this.socket := socket;
      buffered := initial;
      position := 0;
      taken := 0;
    }

    /** One socket read; false at the end of the connection. */
    method Fill() returns (ok: bool)
      requires Valid()
      modifies this
      ensures Valid() && Remaining() == old(Remaining())
      ensures ok <==> old(taken) < |socket|
      ensures ok ==> taken == old(taken) + 1 && Pending() == old(Pending()) + socket[old(taken)]
      ensures !ok ==> taken == old(taken) && Pending() == old(Pending()) == Remaining()
    {
      buffered := buffered[position..];
      position := 0;
      if taken == |socket| {
        return false;
      }
      assert socket[taken..][0] == socket[taken] && socket[taken..][1..] == socket[taken + 1..];
      buffered := buffered + socket[taken];
      taken := taken + 1;
      ok := true;
    }

    /** Consumes `n` buffered bytes. */
    method Take(n: nat) returns (bytes: seq<Byte>)
      requires Valid() && n <= |Pending()|
      modifies this`position
      ensures Valid() && bytes == old(Pending())[..n] && Pending() == old(Pending())[n..]
      ensures n <= |old(Remaining())| && bytes == old(Remaining())[..n] && Remaining() == old(Remaining())[n..]
    {
      bytes := buffered[position..][..n];
      position := position + n;
    }

    lemma RemainingIs()
      requires Valid()
      ensures Remaining() == Pending() + Concat(socket[taken..])
    {
    }

    /** What was buffered before the last read had no line end in it. */
    ghost predicate Scanned()
      reads this
      requires Valid()
    {
      || Lazy()
      || (taken > 0 && |socket[taken - 1]| <= |Pending()| && LF !in Pending()[..|Pending()| - |socket[taken - 1]|])
    }

    /** The line the buffer holds, without its CRLF. */
    method TakeLine(max: nat) returns (line: Option<seq<Byte>>)
      requires Valid() && Scanned() && LF in Pending()
      modifies this`position
      ensures Valid()
      ensures
        match FirstLine(old(Remaining()), max)
        case None => line == None
        case Some(Line(text, rest)) => line == Some(text) && Remaining() == rest && Lazy()
    {
      hide FirstLine, IndexOf, Concat, Remaining;
      var pending := buffered[position..];
      RemainingIs();
      LineOfAll(pending, Concat(socket[taken..]), max);
      var text, end := CutLine(pending, max);
      if !Lazy() {
        LineEndsInLastRead(pending, |socket[taken - 1]|);
      }
      if text.Some? {
        var _ := Take(end + 1);
      }
      return text;
    }

    /** The first line of what is still to come, its end taken off; `None` if it is refused or cut short. */
    method ReadLine(max: nat) returns (line: Option<seq<Byte>>)
      requires Valid() && Lazy()
      modifies this
      ensures Valid()
      ensures
        match FirstLine(old(Remaining()), max)
        case None => line == None
        case Some(Line(text, rest)) => line == Some(text) && Remaining() == rest && Lazy()
    {
      while true
        invariant Valid() && Remaining() == old(Remaining()) && Scanned()
        decreases |socket| - taken
      {
        ghost var more := Concat(socket[taken..]);
        var pending := buffered[position..];
        if LF in pending {
          line := TakeLine(max);
          return;
        }
        if |pending| > max + 1 {
          TooLongAnyway(pending, more, max);
          return None;
        }
        var ok := Fill();
        if !ok {
          return None;
        }
      }
    }

    /** Copies the next `size` bytes to `upstream`; at the end of the connection only what there was. */
    method CopyExact(upstream: seq<Byte>, size: nat) returns (ok: bool, written: seq<Byte>)
      requires Valid() && Lazy()
      modifies this
      ensures Valid()
      ensures ok <==> size <= |old(Remaining())|
      ensures ok ==> Lazy() && written == upstream + old(Remaining())[..size] && Remaining() == old(Remaining())[size..]
      ensures !ok ==> written == upstream + old(Remaining())
    {
      hide Concat, Remaining;
      ghost var wire, copied := Remaining(), 0;
      written := upstream;
      var remaining := size;
      while remaining > 0
        invariant Valid() && Lazy()
        invariant 0 <= remaining && 0 <= copied <= |wire| && remaining + copied == size
        invariant written == upstream + wire[..copied] && Remaining() == wire[copied..]
        decreases remaining
      {
        if position == |buffered| {
          var filled := Fill();
          if !filled {
            assert wire[..copied] == wire;
            return false, written;
          }
        }
        var available := |buffered| - position;
        var n := if available < remaining then available else remaining;
        var bytes := Take(n);
        CopiedPrefix(upstream, wire, copied, n);
        written := written + bytes;
        remaining, copied := remaining - n, copied + n;
      }
      ok := true;
    }
  }

  /** The parse of what remains, after the chunks already done. */
  ghost function Continued(done: seq<seq<Byte>>, remaining: seq<Byte>, room: nat): Parse {
    var parse := ParseBody(remaining, room);
    Parse(done + parse.chunks, parse.end)
  }

  ghost function EndOf(item: Item): End
    requires !item.Chunk?
  {
    match item
    case Malformed => Broken
    case CutShort(size, data) => BrokenIn(size, data)
    case Final(rest) => if AfterTrailers(rest, 0).Some? then Complete(AfterTrailers(rest, 0).value) else Broken
  }

  /** One item more: a chunk joins what is done, anything else ends the body. */
  lemma ContinuedStep(done: seq<seq<Byte>>, wire: seq<Byte>, room: nat)
    ensures
      var item, parse := NextItem(wire, room), Continued(done, wire, room);
      if item.Chunk? then parse == Continued(done + [item.data], item.rest, room - |item.data|)
      else parse == Parse(done, EndOf(item))
    ensures
      var item := NextItem(wire, room);
      item.Chunk? ==> FrameChunks(done + [item.data]) == FrameChunks(done) + FrameChunk(item.data)
  {
    hide NextItem, AfterTrailers, Hex;
    match NextItem(wire, room)
    case Chunk(data, rest) =>
      FrameOneMore(done, data);
      assert done + ([data] + ParseBody(rest, room - |data|).chunks) == done + [data] + ParseBody(rest, room - |data|).chunks;
    case _ =>
      assert done + [] == done;
  }

  /** Some number of socket reads delivers exactly everything but `rest`. */
  ghost predicate EndsAtRead(socket: seq<seq<Byte>>, rest: seq<Byte>) {
    exists m: nat :: m <= |socket| && |rest| == |Concat(socket[m..])|
  }

  lemma {:induction false} LaterReadsAreShorter(socket: seq<seq<Byte>>, m: nat, n: nat)
    requires m < n <= |socket| && forall i :: 0 <= i < |socket| ==> socket[i] != []
    ensures |Concat(socket[m..])| >= |socket[n - 1]| + |Concat(socket[n..])|
    decreases n - m
  {
    assert socket[m..][1..] == socket[m + 1..];
    if m + 1 < n {
      LaterReadsAreShorter(socket, m + 1, n);
    }
  }

  /** A lazy source holds nothing past what it consumed exactly when a read ended there. */
  lemma EmptyBufferAtRead(socket: seq<seq<Byte>>, taken: nat, pending: seq<Byte>)
    requires taken <= |socket| && forall i :: 0 <= i < |socket| ==> socket[i] != []
    requires taken > 0 ==> |pending| < |socket[taken - 1]|
    ensures pending == [] <==> EndsAtRead(socket, pending + Concat(socket[taken..]))
  {
    var rest := pending + Concat(socket[taken..]);
    if pending == [] {
      assert |rest| == |Concat(socket[taken..])|;
    }
    if EndsAtRead(socket, rest) {
      var m: nat :| m <= |socket| && |rest| == |Concat(socket[m..])|;
      if m < taken {
        LaterReadsAreShorter(socket, m, taken);
      } else if taken < m {
        LaterReadsAreShorter(socket, taken, m);
      }
    }
  }

  method ReadTrailers(source: Source) returns (ok: bool)
    requires source.Valid() && source.Lazy()
    modifies source
    ensures source.Valid()
    ensures
      match AfterTrailers(old(source.Remaining()), 0)
      case None => !ok
      case Some(rest) => ok && source.Remaining() == rest && source.Lazy()
  {
    hide FirstLine, ValidTrailer, Concat;
    var trailerBytes := 0;
    while true
      invariant source.Valid() && source.Lazy() && 0 <= trailerBytes
      invariant AfterTrailers(source.Remaining(), trailerBytes) == AfterTrailers(old(source.Remaining()), 0)
      decreases |source.Remaining()|
    {
      var line := source.ReadLine(MAX_CHUNK_TRAILER_BYTES);
      if line.None? {
        return false;
      }
      if line.value == [] {
        return true;
      }
      trailerBytes := trailerBytes + |line.value| + 2;
      if trailerBytes > MAX_CHUNK_TRAILER_BYTES || !ValidTrailer(line.value) {
        return false;
      }
    }
  }

  /** What one item means for the size reported and the bytes written. */
  ghost predicate Forwarded(item: Item, upstream: seq<Byte>, size: Option<nat>, written: seq<Byte>) {
    match item
    case Malformed => size == None && written == upstream
    case CutShort(n, data) => size == None && written == upstream + (Hex(n) + CRLF + data)
    case Final(_) => size == Some(0) && written == upstream
    case Chunk(data, _) => size == Some(|data|) && 0 < |data| && written == upstream + FrameChunk(data)
  }

  /** One chunk, from its size line to its closing CRLF; `size` is 0 for the last-chunk line. */
  method ForwardChunk(source: Source, upstream: seq<Byte>, room: nat) returns (size: Option<nat>, written: seq<Byte>)
    requires source.Valid() && source.Lazy()
    modifies source
    ensures source.Valid()
    ensures Forwarded(NextItem(old(source.Remaining()), room), upstream, size, written)
    ensures size.Some? ==> source.Lazy() && source.Remaining() == NextItem(old(source.Remaining()), room).rest
  {
    hide FirstLine, ParseChunkSize, Hex, Concat;
    written := upstream;
    var line := source.ReadLine(MAX_CHUNK_LINE_BYTES);
    if line.None? {
      return None, written;
    }
    size := ParseChunkSize(line.value);
    if size.None? || size.value == 0 {
      return size, written;
    }
    if size.value > room {
      return None, written;
    }
    written := written + Hex(size.value) + CRLF;
    ghost var body := source.Remaining();
    var copied;
    copied, written := source.CopyExact(written, size.value);
    if !copied {
      return None, written;
    }
    var newline := source.ReadLine(0);
    if newline.None? {
      return None, written;
    }
    written := written + CRLF;
  }

  /**
   * Streaming equals one-shot: however the wire is split between `initial` and
   * the socket's reads, the outcome and the bytes written upstream are those of
   * the whole-string parse. Bytes after a complete body are refused exactly when
   * the read that completed the body brought some of them along.
   */
  method ForwardChunkedBody(initial: seq<Byte>, socket: seq<seq<Byte>>, maxBody: nat) returns (ok: bool, written: seq<Byte>)
    requires forall i :: 0 <= i < |socket| ==> socket[i] != []
    ensures
      var parse := ParseBody(initial + Concat(socket), maxBody);
      if parse.end.Complete?
      then (ok <==> EndsAtRead(socket, parse.end.rest)) && written == if ok then Upstream(parse) else FrameChunks(parse.chunks)
      else !ok && written == Upstream(parse)
  {
    hide NextItem, Hex, Concat, AfterTrailers, ParseBody;
    var source := new Source(initial, socket);
    ghost var done: seq<seq<Byte>> := [];
    var total := 0;
    written := [];
    while true
      invariant source.Valid() && source.Lazy() && source.socket == socket && 0 <= total <= maxBody
      invariant written == FrameChunks(done)
      invariant Continued(done, source.Remaining(), maxBody - total) == ParseBody(initial + Concat(socket), maxBody)
      decreases |source.Remaining()|
    {
      ContinuedStep(done, source.Remaining(), maxBody - total);
      ghost var item := NextItem(source.Remaining(), maxBody - total);
      var size;
      size, written := ForwardChunk(source, written, maxBody - total);
      if size.None? {
        return false, written;
      }
      if size.value == 0 {
        break;
      }
      total := total + size.value;
      done := done + [item.data];
    }
    var valid := ReadTrailers(source);
    if !valid {
      return false, written;
    }
    EmptyBufferAtRead(socket, source.taken, source.Pending());
    if source.buffered[source.position..] != [] {
      return false, written;
    }
    written := written + FINAL_CHUNK;
    ok := true;
  }
}
