/** The proxy's own header lines, and the fixed point. */
module HttpFixedPoint {
  import opened AsciiText
  import opened Common
  import opened HttpText
  import opened HttpRequest
  import opened HttpRewrite

  // ---- The proxy's own names ----

  lemma Unlike(name: string, other: string, i: nat)
    requires i < |name| && i < |other| && LowerChar(name[i]) != LowerChar(other[i])
    ensures !SameName(name, other)
  {
    assert Lower(name)[i] != Lower(other)[i];
  }

  lemma ForwardedPrefix(name: string)
    requires StartsWith(name, "X-Forwarded-")
    ensures IsForwarding(name)
  {
    var folded, prefix := Fold(name), "x-forwarded-";
    forall i | 0 <= i < 12
      ensures folded[i] == prefix[i]
    {
      assert name[i] == name[..12][i] == "X-Forwarded-"[i];
    }
    assert folded[..12] == prefix;
  }

  lemma ForwardedForKind()
    ensures KindOf("X-Forwarded-For") == Dropped && IsToken("X-Forwarded-For")
    ensures KindOf("X-Real-IP") == Dropped && IsToken("X-Real-IP")
  {
    ForwardedPrefix("X-Forwarded-For");
    assert Fold("X-Real-IP") == "x-real-ip";
  }

  lemma ForwardedHostKind()
    ensures KindOf("X-Forwarded-Proto") == Dropped && IsToken("X-Forwarded-Proto")
    ensures KindOf("X-Forwarded-Host") == Dropped && IsToken("X-Forwarded-Host")
  {
    ForwardedPrefix("X-Forwarded-Proto");
    ForwardedPrefix("X-Forwarded-Host");
    Unlike("X-Forwarded-Proto", "transfer-encoding", 0);
  }

  lemma ConnectionKind()
    ensures KindOf("Connection") == Connection && IsToken("Connection")
  {
    assert Lower("Connection") == "connection" == Lower("connection");
  }

  lemma UpgradeKind()
    ensures KindOf("Upgrade") == Upgrade && IsToken("Upgrade")
  {
    assert Lower("Upgrade") == "upgrade" == Lower("upgrade");
  }

  lemma TransferEncodingKind()
    ensures KindOf("Transfer-Encoding") == TransferEncoding && IsToken("Transfer-Encoding")
  {
    assert Lower("Transfer-Encoding") == "transfer-encoding" == Lower("transfer-encoding");
  }

  // ---- Reading the proxy's own lines ----

  /** A line the proxy writes is read as its name's kind and its value's text. */
  lemma ReadOwn(st: Scan, name: string, value: string)
    requires IsToken(name) && !HasControl(value)
    ensures ReadLine(st, Field(name, value)) == Interpret(st, Field(name, value), KindOf(name), " " + value)
  {
    FieldOf(name, value);
    hide KindOf, Interpret, IsToken, HasControl, Field;
  }

  lemma {:induction false} ReadDropped(st: Scan, lines: seq<string>)
    requires forall i :: 0 <= i < |lines| ==> ReadLine(st, lines[i]) == Ok(st)
    ensures ReadLines(st, lines) == Ok(st)
  {
    if lines != [] {
      hide ReadLine;
      ReadDropped(st, lines[..|lines| - 1]);
    }
  }

  /** A name and a value the proxy writes that it would itself drop. */
  predicate IsDroppedField(name: string, value: string) {
    IsToken(name) && !HasControl(value) && KindOf(name) == Dropped
  }

  lemma OwnDropped(st: Scan, name: string, value: string)
    requires IsDroppedField(name, value)
    ensures ReadLine(st, Field(name, value)) == Ok(st) && IsLine(Field(name, value))
  {
    hide KindOf, IsToken, HasControl, Field;
    ReadOwn(st, name, value);
    FieldOf(name, value);
    FieldIsLine(Field(name, value));
  }

  lemma FourDropped(
    st: Scan, n1: string, v1: string, n2: string, v2: string, n3: string, v3: string, n4: string, v4: string)
    requires IsDroppedField(n1, v1) && IsDroppedField(n2, v2) && IsDroppedField(n3, v3) && IsDroppedField(n4, v4)
    ensures ReadLines(st, [Field(n1, v1), Field(n2, v2), Field(n3, v3), Field(n4, v4)]) == Ok(st)
    ensures AreLines([Field(n1, v1), Field(n2, v2), Field(n3, v3), Field(n4, v4)])
  {
    hide IsDroppedField, ReadLine, ReadLines, Field, IsLine;
    OwnDropped(st, n1, v1);
    OwnDropped(st, n2, v2);
    OwnDropped(st, n3, v3);
    OwnDropped(st, n4, v4);
    ReadDropped(st, [Field(n1, v1), Field(n2, v2), Field(n3, v3), Field(n4, v4)]);
  }

  lemma ProtoIsClean(https: bool)
    ensures !HasControl(if https then "https" else "http")
  {
  }

  lemma ForwardingFields(client: Client, authority: string)
    requires !HasControl(client.ip) && !HasControl(authority)
    ensures IsDroppedField("X-Forwarded-For", client.ip) && IsDroppedField("X-Real-IP", client.ip)
    ensures IsDroppedField("X-Forwarded-Proto", if client.https then "https" else "http")
    ensures IsDroppedField("X-Forwarded-Host", authority)
  {
    hide KindOf, IsToken, HasControl;
    ForwardedForKind();
    ForwardedHostKind();
    ProtoIsClean(client.https);
  }

  lemma ReadForwarding(st: Scan, client: Client, authority: string)
    requires !HasControl(client.ip) && !HasControl(authority)
    ensures ReadLines(st, Forwarding(client, authority)) == Ok(st) && AreLines(Forwarding(client, authority))
  {
    hide IsDroppedField, HasControl, ReadLines, Field, AreLines;
    ForwardingFields(client, authority);
    FourDropped(
      st, "X-Forwarded-For", client.ip, "X-Forwarded-Proto", if client.https then "https" else "http",
      "X-Forwarded-Host", authority, "X-Real-IP", client.ip);
  }

  /** What the proxy's own framing and connection lines say. */
  function TailRead(st: Scan, mode: Mode): Scan {
    match mode
    case WebSocket(_) => st.(upgrade := Some("websocket"), wsSeen := true, connection := Some("Upgrade"))
    case ChunkedBody => st.(transferEncoding := Some("chunked"), connection := Some("close"))
    case FixedBody(_) => st.(connection := Some("close"))
  }

  lemma TailIsClean()
    ensures !HasControl("close") && !HasControl("Upgrade") && !HasControl("websocket") && !HasControl("chunked")
  {
  }

  lemma ReadConnection(st: Scan, value: string)
    requires st.connection.None? && (value == "close" || value == "Upgrade")
    ensures ReadLine(st, Field("Connection", value)) == Ok(st.(connection := Some(value)))
  {
    hide KindOf, IsToken, HasControl, ReadLine, Trim, Field;
    ConnectionKind();
    TrimOneSpace(value);
    TailIsClean();
    ReadOwn(st, "Connection", value);
  }

  lemma ReadUpgrade(st: Scan)
    requires st.upgrade.None?
    ensures ReadLine(st, Field("Upgrade", "websocket")) == Ok(st.(upgrade := Some("websocket"), wsSeen := true))
  {
    hide KindOf, IsToken, HasControl, ReadLine, Trim, Field;
    UpgradeKind();
    TrimOneSpace("websocket");
    TailIsClean();
    ReadOwn(st, "Upgrade", "websocket");
  }

  lemma ReadTransferEncoding(st: Scan)
    requires st.transferEncoding.None?
    ensures ReadLine(st, Field("Transfer-Encoding", "chunked")) == Ok(st.(transferEncoding := Some("chunked")))
  {
    hide KindOf, IsToken, HasControl, ReadLine, Trim, Field;
    TransferEncodingKind();
    TrimOneSpace("chunked");
    TailIsClean();
    ReadOwn(st, "Transfer-Encoding", "chunked");
  }

  lemma ReadTwo(st: Scan, first: string, second: string)
    ensures ReadLines(st, [first, second]) ==
      if ReadLine(st, first).Err? then ReadLine(st, first) else ReadLine(ReadLine(st, first).value, second)
  {
    hide ReadLine;
    assert [first, second] == [first] + [second];
    ReadAppend(st, [first], [second]);
    ReadOne(st, first);
    if ReadLine(st, first).Ok? {
      ReadOne(ReadLine(st, first).value, second);
    }
  }

  lemma ReadTail(st: Scan, mode: Mode)
    requires st.connection.None? && st.upgrade.None? && st.transferEncoding.None?
    ensures ReadLines(st, Tail(mode)) == Ok(TailRead(st, mode))
  {
    hide ReadLine, ReadLines, Field;
    match mode {
      case WebSocket(_) =>
        ReadTwo(st, Field("Upgrade", "websocket"), Field("Connection", "Upgrade"));
        ReadUpgrade(st);
        ReadConnection(st.(upgrade := Some("websocket"), wsSeen := true), "Upgrade");
      case ChunkedBody =>
        ReadTwo(st, Field("Transfer-Encoding", "chunked"), Field("Connection", "close"));
        ReadTransferEncoding(st);
        ReadConnection(st.(transferEncoding := Some("chunked")), "close");
      case FixedBody(_) =>
        ReadOne(st, Field("Connection", "close"));
        ReadConnection(st, "close");
    }
  }

  // ---- The same mode again ----

  lemma OneToken(token: string, expected: string)
    requires IsToken(token) && Free(token, ',') && Trim(token) == token
    ensures HasToken(token, expected) == Some(SameName(token, expected))
  {
    SplitJoin(token, ',', "");
    hide Split, IsToken, Trim, SameName;
    var tokens := Split(token, ',');
    assert tokens == [token];
    assert SameName(token, expected) ==> SameName(Trim(tokens[0]), expected);
  }

  lemma CloseToken()
    ensures HasToken("close", "upgrade") == Some(false)
  {
    assert !SameName("close", "upgrade") && IsToken("close");
    hide HasToken, SameName, IsToken;
    OneToken("close", "upgrade");
  }

  lemma UpgradeToken()
    ensures HasToken("Upgrade", "upgrade") == Some(true)
  {
    assert Lower("Upgrade") == Lower("upgrade") && IsToken("Upgrade");
    hide HasToken, IsToken;
    OneToken("Upgrade", "upgrade");
  }

  lemma SameNames()
    ensures SameName("websocket", "websocket") && SameName("chunked", "chunked")
  {
  }

  lemma UpgradeAgain(st: Scan, request: RequestLine)
    requires ScanOk(st) && ModeOf(st, request).Ok? && WantsWebSocket(st)
    ensures
      var mode := ModeOf(st, request).value;
      ModeOf(TailRead(Echo(st), mode), request) == Ok(mode)
  {
    hide HasToken, SameName, IsWebSocketKey, StartsWith, IsField, KindOf, HasControl;
    UpgradeToken();
    SameNames();
  }

  lemma BodyAgain(st: Scan, request: RequestLine)
    requires ScanOk(st) && ModeOf(st, request).Ok? && !WantsWebSocket(st)
    ensures
      var mode := ModeOf(st, request).value;
      ModeOf(TailRead(Echo(st), mode), request) == Ok(mode)
  {
    hide HasToken, SameName, IsWebSocketKey, StartsWith, IsField, KindOf, HasControl;
    CloseToken();
    SameNames();
  }

  lemma ModeAgain(st: Scan, request: RequestLine)
    requires ScanOk(st) && ModeOf(st, request).Ok?
    ensures
      var mode := ModeOf(st, request).value;
      ModeOf(TailRead(Echo(st), mode), request) == Ok(mode)
  {
    hide ModeOf, WantsWebSocket, TailRead, Echo, ScanOk;
    if WantsWebSocket(st) {
      UpgradeAgain(st, request);
    } else {
      BodyAgain(st, request);
    }
  }

  lemma RewrittenReadAgain(lines: seq<string>, mode: Mode, client: Client)
    requires ReadLines(START, lines).Ok? && !HasControl(client.ip)
    ensures
      var st := ReadLines(START, lines).value;
      ReadLines(START, Rewritten(st, mode, client)) == Ok(TailRead(Echo(st), mode))
  {
    var st := ReadLines(START, lines).value;
    var forwarding := Forwarding(client, st.authority);
    KeptEchoes(lines);
    ReadingKeepsOk(lines);
    assert !HasControl(st.authority);
    hide ReadLines, Forwarding, HasControl, ScanOk;
    ReadAppend(START, st.kept, forwarding);
    ReadForwarding(Echo(st), client, st.authority);
    ReadAppend(START, st.kept + forwarding, Tail(mode));
    ReadTail(Echo(st), mode);
  }

  lemma RewrittenAreLines(st: Scan, mode: Mode, client: Client)
    requires ScanOk(st) && !HasControl(client.ip)
    ensures AreLines(Rewritten(st, mode, client))
  {
    var forwarding := Forwarding(client, st.authority);
    forall i | 0 <= i < |st.kept|
      ensures IsLine(st.kept[i])
    {
      FieldIsLine(st.kept[i]);
    }
    hide Forwarding, Tail, IsLine, HasControl;
    ReadForwarding(st, client, st.authority);
    TailIsLines(mode);
  }

  lemma OwnLine(name: string, value: string)
    requires IsToken(name) && !HasControl(value)
    ensures IsLine(Field(name, value))
  {
    hide IsToken, HasControl, Field;
    FieldOf(name, value);
    FieldIsLine(Field(name, value));
  }

  lemma TailIsLines(mode: Mode)
    ensures AreLines(Tail(mode))
  {
    ConnectionKind();
    UpgradeKind();
    TransferEncodingKind();
    TailIsClean();
    hide KindOf, IsToken, HasControl, Field, IsLine;
    OwnLine("Connection", "close");
    OwnLine("Connection", "Upgrade");
    OwnLine("Upgrade", "websocket");
    OwnLine("Transfer-Encoding", "chunked");
  }

  /** The header lines a reader finds in a head. */
  function HeaderLines(head: string): seq<string> {
    HeadOf(Lines(head)[1..])
  }

  function ScanOf(head: string): Result<Scan> {
    ReadLines(START, HeaderLines(head))
  }

  lemma WrittenReadAgain(line: string, rewritten: seq<string>)
    requires IsLine(line) && AreLines(rewritten)
    ensures
      var header := Unlines([line] + rewritten) + "\r\n";
      Lines(header)[0] == line && HeaderLines(header) == rewritten
  {
    hide IsLine, Lines, HeadOf;
    var all := [line] + rewritten;
    LinesOfUnlines(all);
    HeadOfLines(rewritten);
    assert (all + ["", ""])[1..] == rewritten + ["", ""];
  }

  /** The rewritten head, split into lines again, is the request line and the rewritten header lines. */
  lemma HeadReadAgain(head: string, client: Client)
    requires RequestPlan(head, client).Ok? && !HasControl(client.ip)
    ensures
      var plan := RequestPlan(head, client).value;
      && ScanOf(head).Ok? && Lines(plan.header)[0] == Lines(head)[0]
      && HeaderLines(plan.header) == Rewritten(ScanOf(head).value, plan.mode, client)
  {
    hide Lines, HeadOf, ReadLines, ParseRequestLine, ModeOf, Rewritten, Unlines, ScanOk, HasControl, SameName;
    var line, st, plan := Lines(head)[0], ScanOf(head).value, RequestPlan(head, client).value;
    ReadingKeepsOk(HeaderLines(head));
    RequestLineIsLine(line);
    RewrittenAreLines(st, plan.mode, client);
    WrittenReadAgain(line, Rewritten(st, plan.mode, client));
  }

  /**
   * For every accepted head, planning the rewritten head for the same client
   * succeeds and gives the same header text, host and body mode.
   */
  lemma PlanIsFixedPoint(head: string, client: Client)
    requires RequestPlan(head, client).Ok? && !HasControl(client.ip)
    ensures
      var plan := RequestPlan(head, client).value;
      RequestPlan(plan.header, client) == Ok(plan.(expectContinue := false))
  {
    var st, request, plan := ScanOf(head).value, ParseRequestLine(Lines(head)[0]).value, RequestPlan(head, client).value;
    HeadReadAgain(head, client);
    ReadingKeepsOk(HeaderLines(head));
    hide Lines, HeadOf, ReadLines, ParseRequestLine, ModeOf, Rewritten, Unlines, ScanOk, HasControl;
    RewrittenReadAgain(HeaderLines(head), plan.mode, client);
    ModeAgain(st, request);
    RewrittenSame(st, plan.mode, client);
  }

  lemma RewrittenSame(st: Scan, mode: Mode, client: Client)
    ensures Rewritten(TailRead(Echo(st), mode), mode, client) == Rewritten(st, mode, client)
    ensures TailRead(Echo(st), mode).host == st.host && TailRead(Echo(st), mode).expectation.None?
  {
  }

  // ---- A head that is planned ----

  function Spaced(request: RequestLine): string {
    request.method_ + " " + (request.target + " " + request.version)
  }

  /** A method, an origin-form target and a version, none of which can hold a space. */
  predicate IsRequest(request: RequestLine) {
    && IsToken(request.method_) && IsGraphic(request.target) && StartsWith(request.target, "/")
    && (request.version == "HTTP/1.0" || request.version == "HTTP/1.1") && Free(request.version, ' ')
  }

  lemma RequestLineParses(request: RequestLine)
    requires IsRequest(request)
    ensures ParseRequestLine(Spaced(request)) == Some(request) && Spaced(request) != ""
  {
    assert Free(request.method_, ' ') && Free(request.target, ' ');
    hide IsToken, IsGraphic, StartsWith, Split;
    SplitJoin(request.version, ' ', "");
    SplitJoin(request.target, ' ', request.version);
    SplitJoin(request.method_, ' ', request.target + " " + request.version);
  }

  lemma HostKind()
    ensures KindOf("Host") == Host && IsToken("Host")
  {
    assert Lower("Host") == "host" == Lower("host");
  }

  predicate IsLabel(host: string) {
    host != "" && forall i :: 0 <= i < |host| ==> IsAlphanumericChar(host[i])
  }

  lemma PlainHost(host: string)
    requires IsLabel(host)
    ensures NormalizeHost(" " + host) == Some(Lower(host)) && !HasControl(host)
  {
    TrimOneSpace(host);
    assert Free(host, ':');
    SplitJoin(host, ':', "");
    hide Split, Trim;
  }

  lemma ReadHost(host: string)
    requires IsLabel(host)
    ensures
      var read := ReadLines(START, [Field("Host", host)]);
      && IsLine(Field("Host", host)) && read.Ok?
      && read.value.hostCount == 1 && read.value.host == Some(Lower(host))
      && read.value == START.(hostCount := 1, host := read.value.host, authority := read.value.authority, kept := read.value.kept)
  {
    hide KindOf, IsToken, HasControl, NormalizeHost, Trim, Field, IsLabel, IsLine;
    HostKind();
    PlainHost(host);
    OwnLine("Host", host);
    ReadOwn(START, "Host", host);
    ReadOne(START, Field("Host", host));
  }

  /** A request with nothing but a one-label Host header is planned, with an empty body. */
  lemma PlainRequestIsPlanned(request: RequestLine, host: string, client: Client)
    requires IsRequest(request) && !SameName(request.method_, "CONNECT") && IsLabel(host)
    ensures
      var plan := RequestPlan(Unlines([Spaced(request)] + [Field("Host", host)]) + "\r\n", client);
      plan.Ok? && plan.value.host == Lower(host) && plan.value.mode == FixedBody(0)
  {
    hide ParseRequestLine, Spaced, IsRequest, IsLabel, Lines, HeadOf, SameName, Field, IsLine, ReadLines, Unlines;
    RequestLineParses(request);
    RequestLineIsLine(Spaced(request));
    ReadHost(host);
    WrittenReadAgain(Spaced(request), [Field("Host", host)]);
  }
}
