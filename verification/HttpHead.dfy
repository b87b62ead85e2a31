/** The loop that reads a request head line by line, and what the rewritten head may contain. */
module HttpHead {
  import opened AsciiText
  import opened Common
  import opened HttpText
  import opened HttpRequest
  import opened HttpRewrite
  import opened HttpFixedPoint

  // ---- A name decides its kind ----

  /** What the forwarding and alias checks see of a name is what its lower-case spelling shows. */
  lemma FoldsAs(name: string, lower: string)
    requires SameName(name, lower) && Lower(lower) == lower && Free(lower, '_') && Free(lower, '.')
    ensures Fold(name) == lower && !IsFoldedAlias(name)
  {
    assert Lower(name) == lower;
    forall i | 0 <= i < |name|
      ensures Fold(name)[i] == lower[i] && name[i] != '_' && name[i] != '.'
    {
      assert LowerChar(name[i]) == lower[i];
    }
  }

  predicate IsKeptName(lower: string) {
    || lower == "host" || lower == "content-length" || lower == "sec-websocket-key" || lower == "sec-websocket-version"
    || lower == "sec-websocket-protocol" || lower == "sec-websocket-extensions"
  }

  predicate IsPlainName(s: string) {
    forall i :: 0 <= i < |s| ==> 'a' <= s[i] <= 'z' || s[i] == '-'
  }

  lemma KeptNamesArePlain()
    ensures IsPlainName("host") && IsPlainName("content-length") && IsPlainName("sec-websocket-key")
    ensures IsPlainName("sec-websocket-version") && IsPlainName("sec-websocket-protocol") && IsPlainName("sec-websocket-extensions")
  {
  }

  lemma KeptIsLower(lower: string)
    requires IsKeptName(lower)
    ensures Lower(lower) == lower && Free(lower, '_') && Free(lower, '.')
  {
    KeptNamesArePlain();
    assert IsPlainName(lower);
    hide IsKeptName;
  }

  lemma KeptIsNotForwarding(name: string, lower: string)
    requires IsKeptName(lower) && Fold(name) == lower
    ensures !IsForwarding(name)
  {
    assert lower[0] in {'h', 'c', 's'};
    assert lower == "content-length" ==> lower[1] == 'o';
  }

  lemma KeptDiffers(name: string, lower: string)
    requires IsKeptName(lower) && Lower(name) == lower
    ensures lower != "host" ==> !SameName(name, "host")
    ensures !SameName(name, "transfer-encoding") && !SameName(name, "expect")
    ensures !SameName(name, "connection") && !SameName(name, "upgrade") && !SameName(name, "sec-websocket-accept")
    ensures !SameName(name, "proxy-connection") && !SameName(name, "keep-alive")
  {
    assert |lower| in {4, 14, 17, 21, 22, 24};
    assert |lower| == 17 ==> lower[0] == 's';
    assert Lower("transfer-encoding")[0] == 't';
  }

  /** A name the proxy keeps is none of those it checks for before or after. */
  lemma KeptName(name: string, lower: string)
    requires IsKeptName(lower) && SameName(name, lower)
    ensures !IsForwarding(name) && !IsFoldedAlias(name)
    ensures lower != "host" ==> !SameName(name, "host")
    ensures !SameName(name, "transfer-encoding") && !SameName(name, "expect")
    ensures !SameName(name, "connection") && !SameName(name, "upgrade") && !SameName(name, "sec-websocket-accept")
    ensures !SameName(name, "proxy-connection") && !SameName(name, "keep-alive")
  {
    hide IsForwarding, IsFoldedAlias, Fold, IsKeptName;
    KeptIsLower(lower);
    FoldsAs(name, lower);
    KeptIsNotForwarding(name, lower);
    KeptDiffers(name, lower);
  }

  // ---- The loop ----

  /** At most one of the names the proxy keeps and looks at. */
  lemma KeptApart(name: string, lower: string, other: string)
    requires IsKeptName(lower) && IsKeptName(other) && lower != other && SameName(name, lower)
    ensures !SameName(name, other)
  {
    assert |Lower(name)| == |lower|;
  }

  lemma KeptNames()
    ensures IsKeptName("host") && IsKeptName("content-length") && IsKeptName("sec-websocket-key")
    ensures IsKeptName("sec-websocket-version") && IsKeptName("sec-websocket-protocol") && IsKeptName("sec-websocket-extensions")
  {
  }

  predicate OnlyKind(name: string, lower: string) {
    && !IsForwarding(name) && !IsFoldedAlias(name)
    && !SameName(name, "transfer-encoding") && !SameName(name, "expect")
    && !SameName(name, "connection") && !SameName(name, "upgrade") && !SameName(name, "sec-websocket-accept")
    && !SameName(name, "proxy-connection") && !SameName(name, "keep-alive")
    && (lower != "host" ==> !SameName(name, "host"))
    && (lower != "content-length" ==> !SameName(name, "content-length"))
    && (lower != "sec-websocket-key" ==> !SameName(name, "sec-websocket-key"))
    && (lower != "sec-websocket-version" ==> !SameName(name, "sec-websocket-version"))
    && (lower != "sec-websocket-protocol" ==> !SameName(name, "sec-websocket-protocol"))
    && (lower != "sec-websocket-extensions" ==> !SameName(name, "sec-websocket-extensions"))
  }

  /** A header the proxy keeps and looks at answers to one name only. */
  lemma OneName(name: string, lower: string)
    requires IsKeptName(lower) && SameName(name, lower)
    ensures OnlyKind(name, lower)
  {
    hide IsForwarding, IsFoldedAlias, SameName, IsKeptName;
    KeptName(name, lower);
    KeptNames();
    if lower != "content-length" {
      KeptApart(name, lower, "content-length");
    }
    if lower != "sec-websocket-key" {
      KeptApart(name, lower, "sec-websocket-key");
    }
    if lower != "sec-websocket-version" {
      KeptApart(name, lower, "sec-websocket-version");
    }
    if lower != "sec-websocket-protocol" {
      KeptApart(name, lower, "sec-websocket-protocol");
    }
    if lower != "sec-websocket-extensions" {
      KeptApart(name, lower, "sec-websocket-extensions");
    }
  }

  predicate Agree(r: Result<Scan>, expected: Result<Scan>) {
    r.Ok? == expected.Ok? && (r.Ok? ==> r == expected)
  }

  /** The kind of a name that is none of those checked for up to `upgrade`. */
  function LaterKind(name: string): Kind {
    if SameName(name, "sec-websocket-key") then WsKey
    else if SameName(name, "sec-websocket-version") then WsVersion
    else if SameName(name, "sec-websocket-protocol") then WsProtocol
    else if SameName(name, "sec-websocket-extensions") then WsExtensions
    else if SameName(name, "sec-websocket-accept") then WsAccept
    else if SameName(name, "proxy-connection") || SameName(name, "keep-alive") then Dropped
    else Plain
  }

  /** The second half of the checks, where those that went on end up too. */
  method ReadUpgradeField(st: Scan, line: string, name: string, value: string) returns (r: Result<Scan>)
    ensures Agree(r, Interpret(st, line, LaterKind(name), value))
  {
    hide IsForwarding, IsFoldedAlias, SameName, NormalizeHost, Trim, IsKeptName, KindOf;
    KeptNames();
    var next := st;
    if SameName(name, "sec-websocket-key") {
      OneName(name, "sec-websocket-key");
      if next.wsKey.Some? {
        return Err("duplicate Sec-WebSocket-Key header");
      }
      next := next.(wsKey := Some(Trim(value)), wsSeen := true);
    }
    if SameName(name, "sec-websocket-version") {
      OneName(name, "sec-websocket-version");
      if next.wsVersion.Some? {
        return Err("duplicate Sec-WebSocket-Version header");
      }
      next := next.(wsVersion := Some(Trim(value)), wsSeen := true);
    }
    if SameName(name, "sec-websocket-protocol") {
      OneName(name, "sec-websocket-protocol");
      if next.wsProtocol {
        return Err("duplicate Sec-WebSocket-Protocol header");
      }
      next := next.(wsProtocol := true, wsSeen := true);
    }
    if SameName(name, "sec-websocket-extensions") {
      OneName(name, "sec-websocket-extensions");
      if next.wsExtensions {
        return Err("duplicate Sec-WebSocket-Extensions header");
      }
      next := next.(wsExtensions := true, wsSeen := true);
    }
    if SameName(name, "sec-websocket-accept") {
      return Err("Sec-WebSocket-Accept is forbidden in a client request");
    }
    if SameName(name, "proxy-connection") || SameName(name, "keep-alive") {
      return Ok(next);
    }
    return Ok(next.(kept := next.kept + [line]));
  }

  /** The checks in the order the proxy makes them: most go on to the next, some leave the line out. */
  method ReadField(st: Scan, line: string, name: string, value: string) returns (r: Result<Scan>)
    ensures Agree(r, Interpret(st, line, KindOf(name), value))
  {
    hide IsForwarding, IsFoldedAlias, SameName, NormalizeHost, Trim, IsKeptName;
    KeptNames();
    var next := st;
    if SameName(name, "host") {
      OneName(name, "host");
      var host := NormalizeHost(value);
      if host.None? {
        return Err("invalid Host authority");
      }
      next := next.(hostCount := next.hostCount + 1, host := host, authority := Trim(value));
    }
    if SameName(name, "transfer-encoding") {
      if next.transferEncoding.Some? {
        return Err("duplicate Transfer-Encoding header");
      }
      return Ok(next.(transferEncoding := Some(Trim(value))));
    }
    if SameName(name, "expect") {
      if next.expectation.Some? {
        return Err("duplicate Expect header");
      }
      return Ok(next.(expectation := Some(Trim(value))));
    }
    if IsForwarding(name) || IsFoldedAlias(name) {
      return Ok(next);
    }
    if SameName(name, "content-length") {
      OneName(name, "content-length");
      if next.contentLength.Some? {
        return Err("duplicate Content-Length header");
      }
      var length := ParseContentLength(value);
      if length.Err? {
        return Err(length.error);
      }
      next := next.(contentLength := Some(length.value));
    }
    if SameName(name, "connection") {
      if next.connection.Some? {
        return Err("duplicate Connection header");
      }
      return Ok(next.(connection := Some(Trim(value))));
    }
    if SameName(name, "upgrade") {
      if next.upgrade.Some? {
        return Err("duplicate Upgrade header");
      }
      return Ok(next.(upgrade := Some(Trim(value)), wsSeen := true));
    }
    r := ReadUpgradeField(next, line, name, value);
  }

  method ReadHeaderLine(st: Scan, line: string) returns (r: Result<Scan>)
    ensures Agree(r, ReadLine(st, line))
  {
    var colon := IndexOfChar(line, ':');
    if colon == |line| {
      return Err("malformed request header");
    }
    var name, value := line[..colon], line[colon + 1..];
    if !IsToken(name) {
      return Err("malformed request header name");
    }
    if HasControl(value) {
      return Err("malformed request header value");
    }
    assert IsField(line) && name == NameOf(line) && value == ValueOf(line);
    hide IsField, Interpret, KindOf;
    r := ReadField(st, line, name, value);
  }

  lemma HeadStep(lines: seq<string>, i: nat)
    requires i < |lines| && lines[i] != ""
    ensures HeadOf(lines[i..]) == [lines[i]] + HeadOf(lines[i + 1..])
  {
    assert lines[i..][1..] == lines[i + 1..];
  }

  /** Header lines are read up to the first empty one. */
  method ReadHeaders(lines: seq<string>) returns (r: Result<Scan>)
    ensures Agree(r, ReadLines(START, HeadOf(lines)))
  {
    hide ReadLine;
    ghost var headers := HeadOf(lines);
    var st, i := START, 0;
    assert lines[0..] == lines;
    while i < |lines| && lines[i] != ""
      invariant i <= |lines| && i <= |headers| && headers[i..] == HeadOf(lines[i..])
      invariant ReadLines(START, headers[..i]) == Ok(st)
    {
      HeadStep(lines, i);
      assert headers[i] == headers[i..][0] == lines[i] && headers[..i + 1][..i] == headers[..i];
      assert headers[i + 1..] == headers[i..][1..];
      var next := ReadHeaderLine(st, lines[i]);
      if next.Err? {
        ErrorStays(START, headers, i + 1);
        return next;
      }
      st, i := next.value, i + 1;
    }
    assert headers[..i] == headers;
    r := Ok(st);
  }

  /** The whole of `request_plan`: success, and what it gives, are exactly those of the plan function. */
  method PlanRequest(head: string, client: Client) returns (r: Result<Plan>)
    ensures r.Ok? == RequestPlan(head, client).Ok? && (r.Ok? ==> r == RequestPlan(head, client))
  {
    hide ParseRequestLine, SameName, Finish, ReadLines, HeadOf;
    var lines := Lines(head);
    if lines[0] == "" {
      return Err("missing request line");
    }
    var request := ParseRequestLine(lines[0]);
    if request.None? {
      return Err("malformed or unsupported HTTP request line");
    }
    if SameName(request.value.method_, "CONNECT") {
      return Err("CONNECT tunneling is disabled");
    }
    var st := ReadHeaders(lines[1..]);
    if st.Err? {
      return Err(st.error);
    }
    r := Finish(lines[0], request.value, st.value, client);
  }

  lemma {:induction false} ErrorStays(st: Scan, lines: seq<string>, k: nat)
    requires k <= |lines| && ReadLines(st, lines[..k]).Err?
    ensures ReadLines(st, lines).Err?
    decreases |lines| - k
  {
    if k < |lines| {
      assert lines[..k + 1][..k] == lines[..k];
      ErrorStays(st, lines, k + 1);
    } else {
      assert lines[..k] == lines;
    }
  }

  // ---- What the rewritten head contains ----

  /** How many header lines are of one kind. */
  function Count(lines: seq<string>, kind: Kind): nat {
    if lines == [] then 0
    else
      var line := lines[|lines| - 1];
      Count(lines[..|lines| - 1], kind) + if IsField(line) && KindOf(NameOf(line)) == kind then 1 else 0
  }

  lemma {:induction false} CountAppend(first: seq<string>, second: seq<string>, kind: Kind)
    ensures Count(first + second, kind) == Count(first, kind) + Count(second, kind)
  {
    hide IsField, KindOf;
    if second == [] {
      assert first + second == first;
    } else {
      var all := first + second;
      assert all[..|all| - 1] == first + second[..|second| - 1];
      CountAppend(first, second[..|second| - 1], kind);
    }
  }

  lemma CountOne(line: string, kind: Kind)
    requires IsField(line)
    ensures Count([line], kind) == if KindOf(NameOf(line)) == kind then 1 else 0
  {
    assert [line][..0] == [];
  }

  lemma InterpretCounts(st: Scan, line: string, kind: Kind, value: string)
    requires Interpret(st, line, kind, value).Ok?
    ensures
      var st' := Interpret(st, line, kind, value).value;
      && st'.hostCount == st.hostCount + (if kind == Host then 1 else 0)
      && (kind == ContentLength ==> st.contentLength.None? && st'.contentLength.Some?)
      && (kind != ContentLength ==> st'.contentLength == st.contentLength)
  {
    hide NormalizeHost, Trim, ParseContentLength;
  }

  /** The kept lines hold every Host line, the one Content-Length line if there was one, and nothing the proxy writes itself. */
  lemma {:induction false} KeptCounts(lines: seq<string>, kind: Kind)
    requires ReadLines(START, lines).Ok?
    ensures
      var st := ReadLines(START, lines).value;
      && Count(st.kept, Host) == st.hostCount
      && Count(st.kept, ContentLength) == (if st.contentLength.Some? then 1 else 0)
      && (!Keeps(kind) ==> Count(st.kept, kind) == 0)
  {
    if lines != [] {
      hide Interpret, IsField, KindOf, Echo;
      var before, line := lines[..|lines| - 1], lines[|lines| - 1];
      KeptCounts(before, kind);
      var st := ReadLines(START, before).value;
      var k := KindOf(NameOf(line));
      InterpretEchoes(st, line, k, ValueOf(line));
      InterpretCounts(st, line, k, ValueOf(line));
      var st' := ReadLine(st, line).value;
      assert Keeps(k) ==> st'.kept[..|st'.kept| - 1] == st.kept;
    }
  }

  lemma CountOwn(name: string, value: string, kind: Kind)
    requires IsToken(name) && !HasControl(value)
    ensures Count([Field(name, value)], kind) == if KindOf(name) == kind then 1 else 0
  {
    hide IsToken, HasControl, KindOf, Field, IsField, Count;
    FieldOf(name, value);
    CountOne(Field(name, value), kind);
  }

  lemma CountTwo(first: string, second: string, kind: Kind)
    ensures Count([first, second], kind) == Count([first], kind) + Count([second], kind)
  {
    assert [first] + [second] == [first, second];
    CountAppend([first], [second], kind);
  }

  lemma TailCounts(mode: Mode, kind: Kind)
    ensures Count(Tail(mode), kind) ==
      (if kind == Connection then 1 else 0)
      + (if kind == TransferEncoding && mode.ChunkedBody? then 1 else 0)
      + (if kind == Upgrade && mode.WebSocket? then 1 else 0)
  {
    hide IsToken, HasControl, KindOf, Field, Count;
    ConnectionKind();
    UpgradeKind();
    TransferEncodingKind();
    TailIsClean();
    CountOwn("Connection", "close", kind);
    CountOwn("Connection", "Upgrade", kind);
    CountOwn("Upgrade", "websocket", kind);
    CountOwn("Transfer-Encoding", "chunked", kind);
    CountTwo(Field("Upgrade", "websocket"), Field("Connection", "Upgrade"), kind);
    CountTwo(Field("Transfer-Encoding", "chunked"), Field("Connection", "close"), kind);
  }

  lemma FourDroppedCount(
    n1: string, v1: string, n2: string, v2: string, n3: string, v3: string, n4: string, v4: string, kind: Kind)
    requires IsDroppedField(n1, v1) && IsDroppedField(n2, v2) && IsDroppedField(n3, v3) && IsDroppedField(n4, v4)
    ensures Count([Field(n1, v1), Field(n2, v2), Field(n3, v3), Field(n4, v4)], kind) == if kind == Dropped then 4 else 0
  {
    CountOwn(n1, v1, kind);
    CountOwn(n2, v2, kind);
    CountOwn(n3, v3, kind);
    CountOwn(n4, v4, kind);
    hide IsDroppedField, Field, Count, IsToken, KindOf, HasControl;
    var a, b, c, d := Field(n1, v1), Field(n2, v2), Field(n3, v3), Field(n4, v4);
    CountTwo(a, b, kind);
    CountTwo(c, d, kind);
    CountAppend([a, b], [c, d], kind);
    assert [a, b] + [c, d] == [a, b, c, d];
  }

  lemma ForwardingCounts(client: Client, authority: string, kind: Kind)
    requires !HasControl(client.ip) && !HasControl(authority)
    ensures Count(Forwarding(client, authority), kind) == if kind == Dropped then 4 else 0
  {
    hide IsDroppedField, HasControl, Count, Field;
    ForwardingFields(client, authority);
    FourDroppedCount(
      "X-Forwarded-For", client.ip, "X-Forwarded-Proto", if client.https then "https" else "http",
      "X-Forwarded-Host", authority, "X-Real-IP", client.ip, kind);
  }

  lemma RewrittenCounts(lines: seq<string>, mode: Mode, client: Client, kind: Kind)
    requires ReadLines(START, lines).Ok? && !HasControl(client.ip)
    ensures
      var st := ReadLines(START, lines).value;
      Count(Rewritten(st, mode, client), kind) ==
        Count(st.kept, kind) + (if kind == Dropped then 4 else 0) + Count(Tail(mode), kind)
  {
    ReadingKeepsOk(lines);
    var st := ReadLines(START, lines).value;
    assert !HasControl(st.authority);
    hide Count, Forwarding, Tail, HasControl, ReadLines, ScanOk;
    ForwardingCounts(client, st.authority, kind);
    CountAppend(st.kept, Forwarding(client, st.authority), kind);
    CountAppend(st.kept + Forwarding(client, st.authority), Tail(mode), kind);
  }

  /**
   * The rewritten head has one Host and one Connection header, no Expect header,
   * no header about the client hop but the proxy's own four, and at most one
   * header that frames a body: the one its mode names.
   */
  lemma FramingIsUnambiguous(head: string, client: Client)
    requires RequestPlan(head, client).Ok? && !HasControl(client.ip)
    ensures
      var plan := RequestPlan(head, client).value;
      var out := HeaderLines(plan.header);
      && Count(out, Host) == 1 && Count(out, Connection) == 1 && Count(out, Expectation) == 0 && Count(out, Dropped) == 4
      && Count(out, Upgrade) == (if plan.mode.WebSocket? then 1 else 0)
      && Count(out, TransferEncoding) == (if plan.mode.ChunkedBody? then 1 else 0)
      && Count(out, ContentLength) <= (if plan.mode.FixedBody? then 1 else 0)
      && (plan.mode.FixedBody? && plan.mode.length > 0 ==> Count(out, ContentLength) == 1)
  {
    hide ReadLines, Count, Rewritten, Lines, HeadOf, ParseRequestLine, HasControl, ModeOf, Unlines, SameName;
    var st, request, plan := ScanOf(head).value, ParseRequestLine(Lines(head)[0]).value, RequestPlan(head, client).value;
    HeadReadAgain(head, client);
    CountsAre(HeaderLines(head), plan.mode, client);
    ModeCounts(st, request);
  }

  lemma CountsAre(headers: seq<string>, mode: Mode, client: Client)
    requires ReadLines(START, headers).Ok? && !HasControl(client.ip)
    ensures
      var st := ReadLines(START, headers).value;
      var out := Rewritten(st, mode, client);
      && Count(out, Host) == st.hostCount && Count(out, Connection) == 1 && Count(out, Expectation) == 0 && Count(out, Dropped) == 4
      && Count(out, Upgrade) == (if mode.WebSocket? then 1 else 0)
      && Count(out, TransferEncoding) == (if mode.ChunkedBody? then 1 else 0)
      && Count(out, ContentLength) == (if st.contentLength.Some? then 1 else 0)
  {
    hide ReadLines, Count, Rewritten, HasControl, Tail;
    var kinds := [Host, Connection, Expectation, Upgrade, TransferEncoding, ContentLength, Dropped];
    forall i | 0 <= i < |kinds|
      ensures Count(Rewritten(ReadLines(START, headers).value, mode, client), kinds[i]) ==
        Count(ReadLines(START, headers).value.kept, kinds[i]) + (if kinds[i] == Dropped then 4 else 0) + Count(Tail(mode), kinds[i])
      ensures !Keeps(kinds[i]) ==> Count(ReadLines(START, headers).value.kept, kinds[i]) == 0
    {
      RewrittenCounts(headers, mode, client, kinds[i]);
      KeptCounts(headers, kinds[i]);
      TailCounts(mode, kinds[i]);
    }
    KeptCounts(headers, Host);
    TailCounts(mode, Host);
    TailCounts(mode, Connection);
    TailCounts(mode, Expectation);
    TailCounts(mode, Upgrade);
    TailCounts(mode, TransferEncoding);
    TailCounts(mode, ContentLength);
    TailCounts(mode, Dropped);
    assert kinds[0] == Host && kinds[1] == Connection && kinds[2] == Expectation;
    assert kinds[3] == Upgrade && kinds[4] == TransferEncoding && kinds[5] == ContentLength && kinds[6] == Dropped;
  }

  lemma ModeCounts(st: Scan, request: RequestLine)
    requires ModeOf(st, request).Ok?
    ensures
      var mode := ModeOf(st, request).value;
      && st.hostCount == 1
      && (st.contentLength.Some? ==> mode.FixedBody?)
      && (mode.FixedBody? && mode.length > 0 ==> st.contentLength.Some?)
  {
    hide HasToken, SameName, IsWebSocketKey, StartsWith;
  }
}
