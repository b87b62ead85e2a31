/** The HTTP proxy's rewriting of a request head, over its decoded text. */
module HttpRequest {
  import opened AsciiText
  import opened Common
  import opened HttpText

  const MAX_REQUEST_BODY_BYTES: nat := 16 * 1024 * 1024

  // ---- Text ----

  predicate IsToken(s: string) {
    s != "" && forall i :: 0 <= i < |s| ==> IsTokenCode(s[i] as int)
  }

  predicate HasControl(s: string) {
    exists i :: 0 <= i < |s| && IsForbiddenControl(s[i] as int)
  }

  /** Unicode white space, which trimming removes. */
  predicate IsSpace(c: char) {
    var code := c as int;
    || 9 <= code <= 13 || code == 0x20 || code == 0x85 || code == 0xA0 || code == 0x1680
    || 0x2000 <= code <= 0x200A || code == 0x2028 || code == 0x2029 || code == 0x202F || code == 0x205F || code == 0x3000
  }

  function TrimStart(s: string): string {
    if s != "" && IsSpace(s[0]) then TrimStart(s[1..]) else s
  }

  function TrimEnd(s: string): string {
    if s != "" && IsSpace(s[|s| - 1]) then TrimEnd(s[..|s| - 1]) else s
  }

  function Trim(s: string): string {
    TrimEnd(TrimStart(s))
  }

  predicate AllDigits(s: string) {
    forall i :: 0 <= i < |s| ==> IsDigitChar(s[i])
  }

  // ---- Header names ----

  function FoldChar(c: char): char {
    if c == '_' || c == '.' then '-' else LowerChar(c)
  }

  /** Servers that read `_` and `.` as `-` see this name. */
  function Fold(s: string): (folded: string)
    ensures |folded| == |s| && forall i :: 0 <= i < |s| ==> folded[i] == FoldChar(s[i])
  {
    seq(|s|, i requires 0 <= i < |s| => FoldChar(s[i]))
  }

  predicate StartsWith(s: string, prefix: string) {
    |prefix| <= |s| && s[..|prefix|] == prefix
  }

  /** Header names the proxy writes itself, in any spelling. */
  predicate IsForwarding(name: string) {
    var folded := Fold(name);
    || StartsWith(folded, "x-forwarded-")
    || folded == "forwarded" || folded == "x-real-ip" || folded == "true-client-ip" || folded == "cf-connecting-ip"
    || folded == "x-client-ip" || folded == "client-ip" || folded == "fastly-client-ip" || folded == "x-cluster-client-ip"
  }

  /** Equal, once `_` and `.` are read as `-`, to a name that changes framing or connection. */
  predicate IsFoldedAlias(name: string) {
    var folded := Fold(name);
    && ('_' in name || '.' in name)
    && (|| folded == "content-length" || folded == "transfer-encoding" || folded == "keep-alive" || folded == "proxy-connection"
        || StartsWith(folded, "sec-websocket-"))
  }

  datatype Kind =
    | Host | TransferEncoding | Expectation | Dropped | ContentLength | Connection | Upgrade
    | WsKey | WsVersion | WsProtocol | WsExtensions | WsAccept | Plain

  /** What the proxy does with a header depends on its name alone. */
  function KindOf(name: string): Kind {
    if SameName(name, "host") then Host
    else if SameName(name, "transfer-encoding") then TransferEncoding
    else if SameName(name, "expect") then Expectation
    else if IsForwarding(name) || IsFoldedAlias(name) then Dropped
    else if SameName(name, "content-length") then ContentLength
    else if SameName(name, "connection") then Connection
    else if SameName(name, "upgrade") then Upgrade
    else if SameName(name, "sec-websocket-key") then WsKey
    else if SameName(name, "sec-websocket-version") then WsVersion
    else if SameName(name, "sec-websocket-protocol") then WsProtocol
    else if SameName(name, "sec-websocket-extensions") then WsExtensions
    else if SameName(name, "sec-websocket-accept") then WsAccept
    else if SameName(name, "proxy-connection") || SameName(name, "keep-alive") then Dropped
    else Plain
  }

  // ---- Host ----

  predicate IsAuthorityChar(c: char) {
    var code := c as int;
    code < 128 && code != 9 && code != 10 && code != 12 && code != 13 && code != 32 && c != '/' && c != '\\' && c != '@'
  }

  predicate IsPort(s: string) {
    s != "" && AllDigits(s) && 0 < Number(s) <= 65535
  }

  predicate IsHostname(s: string) {
    && s != "" && s[0] != '.'
    && (forall i :: 0 <= i < |s| - 1 ==> !(s[i] == '.' && s[i + 1] == '.'))
    && forall i :: 0 <= i < |s| ==> IsAlphanumericChar(s[i]) || s[i] == '.' || s[i] == '-'
  }

  /** The host a Host value names, in lower case and without its port. */
  function NormalizeHost(value: string): Option<string> {
    var authority := Trim(value);
    if authority == "" || exists i :: 0 <= i < |authority| && !IsAuthorityChar(authority[i]) then None
    else
      var parts := Split(authority, ':');
      if |parts| > 2 || (|parts| == 2 && !IsPort(parts[1])) then None
      else if !IsHostname(TrimEndDots(parts[0])) then None
      else Some(Lower(TrimEndDots(parts[0])))
  }

  // ---- Reading the header lines ----

  /** What the lines read so far said; `kept` are the ones to forward as they are. */
  datatype Scan = Scan(
    contentLength: Option<nat>, transferEncoding: Option<string>, expectation: Option<string>,
    hostCount: nat, host: Option<string>, authority: string,
    connection: Option<string>, upgrade: Option<string>, wsKey: Option<string>, wsVersion: Option<string>,
    wsProtocol: bool, wsExtensions: bool, wsSeen: bool, kept: seq<string>)

  const START := Scan(None, None, None, 0, None, "", None, None, None, None, false, false, false, [])

  function Once(already: Option<string>, value: string, name: string): Result<Option<string>> {
    if already.Some? then Err("duplicate " + name + " header") else Ok(Some(Trim(value)))
  }

  function ParseContentLength(value: string): Result<nat> {
    var digits := Trim(value);
    if digits == "" || !AllDigits(digits) then Err("invalid Content-Length")
    else if Number(digits) > MAX_REQUEST_BODY_BYTES then Err("request body is too large")
    else Ok(Number(digits))
  }

  function Interpret(st: Scan, line: string, kind: Kind, value: string): Result<Scan> {
    var keep := st.(kept := st.kept + [line]);
    match kind
    case Host =>
      var host := NormalizeHost(value);
      if host.None? then Err("invalid Host authority")
      else Ok(keep.(hostCount := st.hostCount + 1, host := host, authority := Trim(value)))
    case TransferEncoding =>
      var te := Once(st.transferEncoding, value, "Transfer-Encoding");
      if te.Err? then Err(te.error) else Ok(st.(transferEncoding := te.value))
    case Expectation =>
      var expectation := Once(st.expectation, value, "Expect");
      if expectation.Err? then Err(expectation.error) else Ok(st.(expectation := expectation.value))
    case Dropped => Ok(st)
    case ContentLength =>
      if st.contentLength.Some? then Err("duplicate Content-Length header")
      else
        var length := ParseContentLength(value);
        if length.Err? then Err(length.error) else Ok(keep.(contentLength := Some(length.value)))
    case Connection =>
      var connection := Once(st.connection, value, "Connection");
      if connection.Err? then Err(connection.error) else Ok(st.(connection := connection.value))
    case Upgrade =>
      var upgrade := Once(st.upgrade, value, "Upgrade");
      if upgrade.Err? then Err(upgrade.error) else Ok(st.(upgrade := upgrade.value, wsSeen := true))
    case WsKey =>
      var key := Once(st.wsKey, value, "Sec-WebSocket-Key");
      if key.Err? then Err(key.error) else Ok(keep.(wsKey := key.value, wsSeen := true))
    case WsVersion =>
      var version := Once(st.wsVersion, value, "Sec-WebSocket-Version");
      if version.Err? then Err(version.error) else Ok(keep.(wsVersion := version.value, wsSeen := true))
    case WsProtocol =>
      if st.wsProtocol then Err("duplicate Sec-WebSocket-Protocol header")
      else Ok(keep.(wsProtocol := true, wsSeen := true))
    case WsExtensions =>
      if st.wsExtensions then Err("duplicate Sec-WebSocket-Extensions header")
      else Ok(keep.(wsExtensions := true, wsSeen := true))
    case WsAccept => Err("Sec-WebSocket-Accept is forbidden in a client request")
    case Plain => Ok(keep)
  }

  /** A line is a token, a colon and a value without control characters. */
  predicate IsField(line: string) {
    var colon := IndexOfChar(line, ':');
    colon < |line| && IsToken(line[..colon]) && !HasControl(line[colon + 1..])
  }

  function NameOf(line: string): string
    requires IsField(line)
  {
    line[..IndexOfChar(line, ':')]
  }

  function ValueOf(line: string): string
    requires IsField(line)
  {
    line[IndexOfChar(line, ':') + 1..]
  }

  function ReadLine(st: Scan, line: string): Result<Scan> {
    if !IsField(line) then Err("malformed request header")
    else Interpret(st, line, KindOf(NameOf(line)), ValueOf(line))
  }

  function ReadLines(st: Scan, lines: seq<string>): Result<Scan> {
    if lines == [] then Ok(st)
    else
      var before := ReadLines(st, lines[..|lines| - 1]);
      if before.Err? then before else ReadLine(before.value, lines[|lines| - 1])
  }

  // ---- The plan ----

  /** What the proxy knows about the client; `ip` is the printed peer address. */
  datatype Client = Client(ip: string, https: bool)

  datatype Mode = FixedBody(length: nat) | ChunkedBody | WebSocket(key: string)

  datatype Plan = Plan(host: string, header: string, mode: Mode, expectContinue: bool)

  datatype RequestLine = RequestLine(method_: string, target: string, version: string)

  predicate IsGraphic(s: string) {
    forall i :: 0 <= i < |s| ==> 33 <= s[i] as int <= 126
  }

  function ParseRequestLine(line: string): Option<RequestLine> {
    var parts := Split(line, ' ');
    if |parts| != 3 then None
    else if !IsToken(parts[0]) || !IsGraphic(parts[1]) || !(StartsWith(parts[1], "/") || parts[1] == "*")
         || !(parts[2] == "HTTP/1.0" || parts[2] == "HTTP/1.1")
    then None
    else Some(RequestLine(parts[0], parts[1], parts[2]))
  }

  /** Whether a comma-separated list of tokens names `expected`; `None` when it is not such a list. */
  function HasToken(value: string, expected: string): Option<bool> {
    var tokens := Split(value, ',');
    if exists i :: 0 <= i < |tokens| && !IsToken(Trim(tokens[i])) then None
    else Some(exists i :: 0 <= i < |tokens| && SameName(Trim(tokens[i]), expected))
  }

  function Base64Value(c: char): Option<nat> {
    if 'A' <= c <= 'Z' then Some(c as int - 'A' as int)
    else if 'a' <= c <= 'z' then Some(26 + c as int - 'a' as int)
    else if '0' <= c <= '9' then Some(52 + c as int - '0' as int)
    else if c == '+' then Some(62)
    else if c == '/' then Some(63)
    else None
  }

  /** Standard base64 of exactly sixteen bytes. */
  predicate IsWebSocketKey(key: string) {
    && |key| == 24 && key[22] == '=' && key[23] == '='
    && (forall i :: 0 <= i < 22 ==> Base64Value(key[i]).Some?)
    && Base64Value(key[21]).value % 16 == 0
  }

  function Field(name: string, value: string): string {
    name + ": " + value
  }

  function Forwarding(client: Client, authority: string): seq<string> {
    [Field("X-Forwarded-For", client.ip),
     Field("X-Forwarded-Proto", if client.https then "https" else "http"),
     Field("X-Forwarded-Host", authority),
     Field("X-Real-IP", client.ip)]
  }

  function Tail(mode: Mode): seq<string> {
    match mode
    case WebSocket(_) => [Field("Upgrade", "websocket"), Field("Connection", "Upgrade")]
    case ChunkedBody => [Field("Transfer-Encoding", "chunked"), Field("Connection", "close")]
    case FixedBody(_) => [Field("Connection", "close")]
  }

  predicate Upgrades(st: Scan) {
    st.connection.Some? && HasToken(st.connection.value, "upgrade") == Some(true)
  }

  predicate WantsWebSocket(st: Scan) {
    st.wsSeen || st.upgrade.Some? || Upgrades(st)
  }

  function WebSocketMode(st: Scan, request: RequestLine): Result<Mode> {
    if request.method_ != "GET" || request.version != "HTTP/1.1" || !StartsWith(request.target, "/")
    then Err("WebSocket upgrade requires GET over HTTP/1.1")
    else if st.contentLength.Some? || st.transferEncoding.Some?
    then Err("WebSocket upgrade must not include a request body")
    else if st.expectation.Some? then Err("WebSocket upgrade must not include Expect")
    else if !Upgrades(st) then Err("WebSocket Connection token is missing")
    else if st.upgrade.None? || !SameName(st.upgrade.value, "websocket") then Err("only a WebSocket Upgrade is supported")
    else if st.wsVersion != Some("13") then Err("only WebSocket version 13 is supported")
    else if st.wsKey.None? then Err("Sec-WebSocket-Key is required")
    else if !IsWebSocketKey(st.wsKey.value) then Err("Sec-WebSocket-Key is invalid")
    else Ok(WebSocket(st.wsKey.value))
  }

  /** How the body is framed, or that there is none but an upgraded stream. */
  function ModeOf(st: Scan, request: RequestLine): Result<Mode> {
    if st.hostCount != 1 then Err("exactly one Host header is required")
    else if st.transferEncoding.Some? && !SameName(st.transferEncoding.value, "chunked")
    then Err("only Transfer-Encoding: chunked is supported")
    else if st.transferEncoding.Some? && st.contentLength.Some?
    then Err("Transfer-Encoding and Content-Length must not both be present")
    else if st.transferEncoding.Some? && request.version != "HTTP/1.1" then Err("Transfer-Encoding requires HTTP/1.1")
    else if st.expectation.Some? && !SameName(st.expectation.value, "100-continue") then Err("unsupported Expect header")
    else if st.connection.Some? && HasToken(st.connection.value, "upgrade").None?
    then Err("malformed comma-separated header token")
    else if WantsWebSocket(st) then WebSocketMode(st, request)
    else if st.transferEncoding.Some? then Ok(ChunkedBody)
    else Ok(FixedBody(if st.contentLength.Some? then st.contentLength.value else 0))
  }

  /** The rewritten header lines. */
  function Rewritten(st: Scan, mode: Mode, client: Client): seq<string> {
    st.kept + Forwarding(client, st.authority) + Tail(mode)
  }

  function Unlines(lines: seq<string>): string {
    if lines == [] then "" else lines[0] + "\r\n" + Unlines(lines[1..])
  }

  function Finish(requestLine: string, request: RequestLine, st: Scan, client: Client): Result<Plan> {
    var mode := ModeOf(st, request);
    if mode.Err? then Err(mode.error)
    else if st.host.None? then Err("Host header is empty or invalid")
    else
      var hasBody := mode.value.ChunkedBody? || (mode.value.FixedBody? && mode.value.length > 0);
      Ok(Plan(
           st.host.value,
           Unlines([requestLine] + Rewritten(st, mode.value, client)) + "\r\n",
           mode.value,
           st.expectation.Some? && request.version == "HTTP/1.1" && hasBody))
  }

  /** Where the next line break is, or the end. */
  function LineEnd(s: string): (i: nat)
    ensures i <= |s| && (i < |s| ==> i + 1 < |s| && s[i] == '\r' && s[i + 1] == '\n')
  {
    if |s| < 2 then |s| else if s[0] == '\r' && s[1] == '\n' then 0 else 1 + LineEnd(s[1..])
  }

  function Lines(s: string): (lines: seq<string>)
    ensures lines != []
    decreases |s|
  {
    var i := LineEnd(s);
    if i == |s| then [s] else [s[..i]] + Lines(s[i + 2..])
  }

  /** The lines before the first empty one. */
  function HeadOf(lines: seq<string>): seq<string> {
    if lines == [] || lines[0] == "" then [] else [lines[0]] + HeadOf(lines[1..])
  }

  function RequestPlan(head: string, client: Client): Result<Plan> {
    var lines := Lines(head);
    var request := ParseRequestLine(lines[0]);
    if lines[0] == "" then Err("missing request line")
    else if request.None? then Err("malformed or unsupported HTTP request line")
    else if SameName(request.value.method_, "CONNECT") then Err("CONNECT tunneling is disabled")
    else
      var st := ReadLines(START, HeadOf(lines[1..]));
      if st.Err? then Err(st.error) else Finish(lines[0], request.value, st.value, client)
  }
}
