/** Parsing a client's proxy request and rewriting an ordinary one for its origin server
    (`src/http_proxy.rs`). */
module HttpProxy {
  import opened Wrappers
  import opened Text
  import opened Utf8
  import opened HeaderReaders
  import Authority

  datatype ProxyRequest =
    | Connect(authority: string, initialClientBytes: seq<byte>)
    | Http(authority: string, initialClientBytes: seq<byte>)

  /** What the source reads off a parsed URL. */
  datatype Url = Url(scheme: string, username: string, password: Option<string>, host: Option<string>,
                     port: Option<nat>, path: string, query: Option<string>)

  type UrlParser = string -> Option<Url>

  /** The targets that are parsed as URLs. */
  predicate IsAbsolute(target: string) {
    StartsWith(target, "http://") || StartsWith(target, "https://")
  }

  /** The facts about `Url::parse` that are relied on, of the only strings it is given: what follows
      the authority holds no whitespace, and a path starts with a slash. */
  ghost predicate ParsesUrls(parse: UrlParser) {
    forall s | IsAbsolute(s) && parse(s).Some? ::
      var url := parse(s).value;
      && NoWhitespace(url.path) && (url.path != "" ==> url.path[0] == '/')
      && (url.query.Some? ==> NoWhitespace(url.query.value))
  }

  const BLANK_LINE := "\r\n\r\n"
  const CLOSE_LINE := "Connection: close"

  // ---- Header fields ----

  predicate Named(line: string, name: string) {
    match SplitOnce(line, ':')
    case Some((head, _)) => IsName(Trim(head), name)
    case None => false
  }

  /** `find_header_value`, of the lines after the request line. */
  function FindValue(fields: seq<string>, name: string): Option<string> {
    if fields == [] then None
    else if Named(fields[0], name) then Some(Trim(SplitOnce(fields[0], ':').value.1))
    else FindValue(fields[1..], name)
  }

  /** `should_strip_http_proxy_header`. */
  predicate ShouldStrip(name: string) {
    || IsName(name, "connection")
    || IsName(name, "keep-alive")
    || IsName(name, "proxy-authenticate")
    || IsName(name, "proxy-authorization")
    || IsName(name, "proxy-connection")
    || IsName(name, "te")
    || IsName(name, "trailer")
    || IsName(name, "upgrade")
  }

  function HostLine(authority: string): string {
    "Host: " + authority
  }

  /** What becomes of one header line: nothing, a line, or a refusal of the request. */
  function RewriteLine(line: string, authority: string): Result<seq<string>> {
    if line == "" then
      Ok([])
    else
      match SplitOnce(line, ':')
      case None => Err
      case Some((head, value)) =>
        var name := Trim(head);
        if ShouldStrip(name) then Ok([])
        else if IsName(name, "host") then Ok([HostLine(authority)])
        else Ok([name + [':'] + value])
  }

  function RewriteLines(fields: seq<string>, authority: string): Result<seq<string>> {
    if fields == [] then Ok([]) else Join(RewriteLine(fields[0], authority), RewriteLines(fields[1..], authority))
  }

  function Join(a: Result<seq<string>>, b: Result<seq<string>>): Result<seq<string>> {
    if a.Ok? && b.Ok? then Ok(a.value + b.value) else Err
  }

  /** The lines of the rewritten header but for the last, which is always `CLOSE_LINE`. */
  function RewriteFields(fields: seq<string>, requestLine: string, authority: string): Result<seq<string>> {
    match RewriteLines(fields, authority)
    case Err => Err
    case Ok(kept) =>
      Ok([requestLine] + kept + if FindValue(fields, "host").None? then [HostLine(authority)] else [])
  }

  function HeaderText(head: seq<string>): string {
    Close(head) + CLOSE_LINE
  }

  /** `rewrite_http_proxy_header`. */
  method RewriteHeader(header: string, method_: string, originForm: string, version: string, authority: string)
    returns (rewritten: Result<string>)
    requires Lines(header) != []
    ensures rewritten == match RewriteFields(Lines(header)[1..], method_ + " " + originForm + " " + version, authority)
                         case Ok(head) => Ok(HeaderText(head) + BLANK_LINE)
                         case Err => Err
  {
    var requestLine := method_ + " " + originForm + " " + version;
    var fields := Lines(header)[1..];
    var text := requestLine + "\r\n";
    ghost var kept := [];
    assert Close([requestLine]) == text;
    assert [requestLine] + kept == [requestLine];
    for i := 0 to |fields|
      invariant text == Close([requestLine] + kept)
      invariant RewriteLines(fields[..i], authority) == Ok(kept)
    {
      var line := fields[i];
      RewriteOneMore(fields, i, authority);
      assert kept + [] == kept;
      if line == "" {
        continue;
      }
      var split := SplitOnce(line, ':');
      if split.None? {
        return Err;
      }
      var name := Trim(split.value.0);
      if ShouldStrip(name) {
        continue;
      }
      var out := name + [':'] + split.value.1;
      if IsName(name, "host") {
        out := "Host: " + authority;
      }
      CloseSnoc([requestLine] + kept, out);
      assert [requestLine] + kept + [out] == [requestLine] + (kept + [out]);
      text := text + out + "\r\n";
      kept := kept + [out];
    }
    assert fields[..|fields|] == fields;
    if FindValue(fields, "host").None? {
      CloseSnoc([requestLine] + kept, HostLine(authority));
      text := text + "Host: " + authority + "\r\n";
    } else {
      assert [requestLine] + kept + [] == [requestLine] + kept;
    }
    LastLineIsClose(text, RewriteFields(fields, requestLine, authority).value);
    text := text + "Connection: close\r\n\r\n";
    rewritten := Ok(text);
  }

  lemma LastLineIsClose(text: string, head: seq<string>)
    requires text == Close(head)
    ensures text + "Connection: close\r\n\r\n" == HeaderText(head) + BLANK_LINE
  {
    assert "Connection: close\r\n\r\n" == CLOSE_LINE + BLANK_LINE;
    assert text + (CLOSE_LINE + BLANK_LINE) == text + CLOSE_LINE + BLANK_LINE;
  }

  lemma CloseSnoc(lines: seq<string>, line: string)
    ensures Close(lines + [line]) == Close(lines) + line + "\r\n"
  {
    CloseAppend(lines, [line]);
    assert Close([line]) == line + "\r\n";
  }

  lemma JoinAssociates(a: Result<seq<string>>, b: Result<seq<string>>, c: Result<seq<string>>)
    ensures Join(a, Join(b, c)) == Join(Join(a, b), c)
  {
    if a.Ok? && b.Ok? && c.Ok? {
      assert a.value + (b.value + c.value) == (a.value + b.value) + c.value;
    }
  }

  lemma {:induction false} RewriteAppend(a: seq<string>, b: seq<string>, authority: string)
    ensures RewriteLines(a + b, authority) == Join(RewriteLines(a, authority), RewriteLines(b, authority))
  {
    if a == [] {
      assert a + b == b;
      assert RewriteLines(b, authority).Ok?
         ==> [] + RewriteLines(b, authority).value == RewriteLines(b, authority).value;
    } else {
      assert (a + b)[1..] == a[1..] + b;
      RewriteAppend(a[1..], b, authority);
      JoinAssociates(RewriteLine(a[0], authority), RewriteLines(a[1..], authority), RewriteLines(b, authority));
    }
  }

  lemma RewriteOneLine(line: string, authority: string)
    ensures RewriteLines([line], authority) == RewriteLine(line, authority)
  {
    assert [line][1..] == [];
    assert RewriteLine(line, authority).Ok? ==>
        RewriteLine(line, authority).value + [] == RewriteLine(line, authority).value;
  }

  /** What a prefix of the lines comes to decides whether all of them are refused. */
  lemma RewriteOneMore(fields: seq<string>, i: nat, authority: string)
    requires i < |fields| && RewriteLines(fields[..i], authority).Ok?
    ensures RewriteLines(fields[..i + 1], authority)
         == Join(RewriteLines(fields[..i], authority), RewriteLine(fields[i], authority))
    ensures RewriteLine(fields[i], authority).Err? ==> RewriteLines(fields, authority).Err?
  {
    assert fields[..i + 1] == fields[..i] + [fields[i]];
    RewriteOneLine(fields[i], authority);
    RewriteAppend(fields[..i], [fields[i]], authority);
    assert fields == fields[..i + 1] + fields[i + 1..];
    RewriteAppend(fields[..i + 1], fields[i + 1..], authority);
  }

  // ---- Requests ----

  /** `parse_absolute_http_target`: the authority and the origin form. */
  function AbsoluteTarget(target: string, parse: UrlParser): Result<(string, string)> {
    match parse(target)
    case None => Err
    case Some(url) =>
      if url.scheme != "http" || url.username != "" || url.password.Some? || url.host.None? then
        Err
      else
        var port := if url.port.Some? then url.port.value else 80;
        var path := if url.path == "" then "/" else url.path;
        var query := if url.query.Some? then "?" + url.query.value else "";
        Ok((Authority.Format(url.host.value, port), path + query))
  }

  /** Where an ordinary request goes, and its target in origin form. */
  function Destination(target: string, fields: seq<string>, parse: UrlParser): Result<(string, string)> {
    if IsAbsolute(target) then
      AbsoluteTarget(target, parse)
    else
      match FindValue(fields, "host")
      case None => Err
      case Some(host) =>
        match Authority.Normalize(host)
        case Err => Err
        case Ok(authority) => Ok((authority, target))
  }

  datatype Parsed = Tunnel(authority: string) | Forward(authority: string, head: seq<string>)

  /** `parse_proxy_request` without the bytes that follow the header. */
  function ParseHeader(header: string, parse: UrlParser): Result<Parsed> {
    var lines := Lines(header);
    if lines == [] then
      Err
    else
      var words := Words(lines[0]);
      if |words| != 3 || !StartsWith(words[2], "HTTP/") then
        Err
      else if words[0] == "CONNECT" then
        if Authority.Valid(words[1]) then Ok(Tunnel(words[1])) else Err
      else
        ParseOrdinary(words[0], words[1], words[2], lines[1..], parse)
  }

  function RequestLine(method_: string, originForm: string, version: string): string {
    method_ + [' '] + originForm + [' '] + version
  }

  /** `parse_http_proxy_request` without those bytes. */
  function ParseOrdinary(method_: string, target: string, version: string, fields: seq<string>, parse: UrlParser)
    : Result<Parsed>
  {
    match Destination(target, fields, parse)
    case Err => Err
    case Ok((authority, originForm)) =>
      if !Authority.Valid(authority) then Err
      else
        match RewriteFields(fields, RequestLine(method_, originForm, version), authority)
        case Err => Err
        case Ok(head) => Ok(Forward(authority, head))
  }

  /** `parse_proxy_request`. */
  function Parse(header: string, leftover: seq<byte>, parse: UrlParser): Result<ProxyRequest> {
    match ParseHeader(header, parse)
    case Err => Err
    case Ok(Tunnel(authority)) => Ok(Connect(authority, leftover))
    case Ok(Forward(authority, head)) => Ok(Http(authority, Encode(HeaderText(head) + BLANK_LINE) + leftover))
  }

  // ---- What a rewritten header is like ----

  predicate OwnLine(line: string, authority: string) {
    '\n' !in line && RewriteLine(line, authority) == Ok([line])
  }

  /** A header the rewriting leaves as it is. */
  predicate Settled(head: seq<string>, authority: string) {
    && head != []
    && (var words := Words(head[0]);
        && |words| == 3 && head[0] == RequestLine(words[0], words[1], words[2])
        && words[0] != "CONNECT" && !IsAbsolute(words[1]) && StartsWith(words[2], "HTTP/"))
    && (forall line <- head[1..] :: OwnLine(line, authority))
    && FindValue(head[1..], "host") == Some(authority)
    && Authority.Valid(authority)
  }

  lemma HostIsKept(name: string)
    requires IsName(name, "host")
    ensures !ShouldStrip(name)
  {
  }

  /** A line whose name needs no trimming is dropped, replaced or kept by that name. */
  lemma ByName(line: string, name: string, value: string, authority: string)
    requires line == name + [':'] + value && ':' !in name && Trim(name) == name
    ensures SplitOnce(line, ':') == Some((name, value))
    ensures forall n :: Named(line, n) <==> IsName(name, n)
    ensures RewriteLine(line, authority)
         == Ok(if ShouldStrip(name) then [] else if IsName(name, "host") then [HostLine(authority)] else [line])
  {
    SplitOnceOf(name, ':', value, line);
  }

  lemma TrimOneSpace(s: string)
    requires NoWhitespace(s)
    ensures Trim([' '] + s) == s
  {
    TrimNothing(s);
    assert ([' '] + s)[1..] == s;
  }

  lemma HostLineParts(authority: string)
    ensures HostLine(authority) == "Host" + [':'] + ([' '] + authority)
    ensures Trim("Host") == "Host" && ':' !in "Host" && IsName("Host", "host")
  {
    TrimNothing("Host");
  }

  lemma HostLineIsOwn(authority: string)
    requires NoWhitespace(authority)
    ensures OwnLine(HostLine(authority), authority)
    ensures FindValue([HostLine(authority)], "host") == Some(authority)
  {
    HostLineParts(authority);
    HostIsKept("Host");
    ByName(HostLine(authority), "Host", [' '] + authority, authority);
    TrimOneSpace(authority);
  }

  lemma CloseLineIsStripped(authority: string)
    ensures RewriteLine(CLOSE_LINE, authority) == Ok([]) && !Named(CLOSE_LINE, "host")
    ensures Named(CLOSE_LINE, "connection")
  {
    TrimNothing("Connection");
    assert IsName("Connection", "connection");
    ByName(CLOSE_LINE, "Connection", " close", authority);
  }

  /** One line: what is kept of it is settled, and it is the Host line exactly when it was one. */
  lemma KeptLine(line: string, authority: string)
    requires '\n' !in line && NoWhitespace(authority) && RewriteLine(line, authority).Ok?
    ensures var kept := RewriteLine(line, authority).value;
            && (forall l <- kept :: OwnLine(l, authority))
            && FindValue(kept, "host") == if Named(line, "host") then Some(authority) else None
  {
    HostLineIsOwn(authority);
    if line != "" {
      var (head, value) := SplitOnce(line, ':').value;
      var name := Trim(head);
      if IsName(name, "host") {
        HostIsKept(name);
      } else if !ShouldStrip(name) {
        OrdinaryLine(line, head, value, authority);
      }
    }
  }

  lemma OrdinaryLine(line: string, head: string, value: string, authority: string)
    requires '\n' !in line && line == head + [':'] + value && ':' !in head
    requires !ShouldStrip(Trim(head)) && !IsName(Trim(head), "host")
    ensures var out := Trim(head) + [':'] + value; OwnLine(out, authority) && !Named(out, "host")
  {
    TrimEnds(head);
    TrimTwice(head);
    ByName(Trim(head) + [':'] + value, Trim(head), value, authority);
  }

  lemma {:induction false} FindValueAppend(a: seq<string>, b: seq<string>, name: string)
    ensures FindValue(a + b, name) == if FindValue(a, name).Some? then FindValue(a, name) else FindValue(b, name)
  {
    if a == [] {
      assert a + b == b;
    } else {
      assert (a + b)[1..] == a[1..] + b;
      FindValueAppend(a[1..], b, name);
    }
  }

  lemma {:induction false} KeptLines(fields: seq<string>, authority: string)
    requires (forall line <- fields :: '\n' !in line) && NoWhitespace(authority)
    requires RewriteLines(fields, authority).Ok?
    ensures var kept := RewriteLines(fields, authority).value;
            && (forall l <- kept :: OwnLine(l, authority))
            && FindValue(kept, "host") == if FindValue(fields, "host").Some? then Some(authority) else None
  {
    if fields != [] {
      KeptLine(fields[0], authority);
      KeptLines(fields[1..], authority);
      FindValueAppend(RewriteLine(fields[0], authority).value, RewriteLines(fields[1..], authority).value, "host");
    }
  }

  lemma FieldsOfHead(fields: seq<string>, requestLine: string, authority: string, head: seq<string>)
    requires (forall line <- fields :: '\n' !in line) && NoWhitespace(authority)
    requires RewriteFields(fields, requestLine, authority) == Ok(head)
    ensures head != [] && head[0] == requestLine
    ensures forall line <- head[1..] :: OwnLine(line, authority)
    ensures FindValue(head[1..], "host") == Some(authority)
  {
    KeptLines(fields, authority);
    HostLineIsOwn(authority);
    var kept := RewriteLines(fields, authority).value;
    var host := if FindValue(fields, "host").None? then [HostLine(authority)] else [];
    assert head[1..] == kept + host;
    FindValueAppend(kept, host, "host");
  }

  lemma OriginForm(target: string, fields: seq<string>, parse: UrlParser)
    requires ParsesUrls(parse) && target != "" && NoWhitespace(target) && Destination(target, fields, parse).Ok?
    ensures var origin := Destination(target, fields, parse).value.1;
            origin != "" && NoWhitespace(origin) && !IsAbsolute(origin)
  {
    if IsAbsolute(target) {
      var origin := Destination(target, fields, parse).value.1;
      assert origin[0] == '/';
      assert "http://"[0] == 'h' && "https://"[0] == 'h';
    }
  }

  /** Every accepted ordinary request comes out settled. */
  lemma RewritingSettles(header: string, parse: UrlParser, authority: string, head: seq<string>)
    requires ParsesUrls(parse) && ParseHeader(header, parse) == Ok(Forward(authority, head))
    ensures Settled(head, authority)
  {
    var lines := Lines(header);
    var words := Words(lines[0]);
    assert words[0] in words && words[1] in words && words[2] in words;
    var (a, origin) := Destination(words[1], lines[1..], parse).value;
    OriginForm(words[1], lines[1..], parse);
    ThreeWords(words[0], origin, words[2], RequestLine(words[0], origin, words[2]));
    FieldsOfHead(lines[1..], RequestLine(words[0], origin, words[2]), authority, head);
  }

  lemma {:induction false} OwnLinesStay(fields: seq<string>, authority: string)
    requires forall line <- fields :: OwnLine(line, authority)
    ensures RewriteLines(fields, authority) == Ok(fields)
  {
    if fields != [] {
      assert OwnLine(fields[0], authority);
      OwnLinesStay(fields[1..], authority);
      RewriteAppend([fields[0]], fields[1..], authority);
      RewriteOneLine(fields[0], authority);
      assert fields == [fields[0]] + fields[1..];
    }
  }

  lemma CloseLineGoes(fields: seq<string>, authority: string)
    requires forall line <- fields :: OwnLine(line, authority)
    ensures RewriteLines(fields + [CLOSE_LINE], authority) == Ok(fields)
  {
    OwnLinesStay(fields, authority);
    RewriteAppend(fields, [CLOSE_LINE], authority);
    CloseLineIsStripped(authority);
    RewriteOneLine(CLOSE_LINE, authority);
    assert fields + [] == fields;
  }

  /** With its last line, a settled header is rewritten to itself. */
  lemma SettledFields(head: seq<string>, authority: string)
    requires Settled(head, authority)
    ensures RewriteFields(head[1..] + [CLOSE_LINE], head[0], authority) == Ok(head)
    ensures FindValue(head[1..] + [CLOSE_LINE], "host") == Some(authority)
  {
    CloseLineGoes(head[1..], authority);
    FindValueAppend(head[1..], [CLOSE_LINE], "host");
    assert [head[0]] + head[1..] + [] == head;
  }

  lemma RequestLineHasNoBreak(head: seq<string>, authority: string)
    requires Settled(head, authority)
    ensures forall line <- head :: line != "" && '\n' !in line
  {
    var words := Words(head[0]);
    assert words[0] in words && words[1] in words && words[2] in words;
    forall line <- head ensures line != "" && '\n' !in line {
      assert line == head[0] || line in head[1..];
    }
  }

  lemma SettledLines(head: seq<string>, authority: string)
    requires Settled(head, authority)
    ensures Lines(HeaderText(head)) == head + [CLOSE_LINE]
    ensures Lines(HeaderText(head))[1..] == head[1..] + [CLOSE_LINE]
  {
    RequestLineHasNoBreak(head, authority);
    LinesOfClosed(head, CLOSE_LINE);
  }

  /** A settled header parses to itself. */
  lemma SettledStays(head: seq<string>, authority: string, parse: UrlParser)
    requires Settled(head, authority)
    ensures ParseHeader(HeaderText(head), parse) == Ok(Forward(authority, head))
  {
    var words := Words(head[0]);
    var fields := head[1..] + [CLOSE_LINE];
    SettledLines(head, authority);
    SettledFields(head, authority);
    Authority.ValidAuthoritiesSplit(authority);
    assert Destination(words[1], fields, parse) == Ok((authority, words[1]));
    assert ParseOrdinary(words[0], words[1], words[2], fields, parse) == Ok(Forward(authority, head));
  }

  // ---- Framing ----

  /** No blank line comes before the last four characters. */
  predicate BlankAtEndOnly(s: string) {
    && |s| >= 4 && At(s, BLANK_LINE, |s| - 4)
    && forall j: nat | j < |s| - 4 :: !At(s, BLANK_LINE, j)
  }

  lemma {:induction false} FirstBlankLine(lines: seq<string>)
    requires lines != [] && forall line <- lines :: line != "" && '\n' !in line
    ensures BlankAtEndOnly(Close(lines) + "\r\n")
  {
    var line := lines[0];
    assert line in lines;
    var rest := Close(lines[1..]) + "\r\n";
    assert Close(lines) + "\r\n" == line + "\r\n" + rest;
    if |lines| == 1 {
      BlankAfterLast(line, rest);
    } else {
      forall l <- lines[1..] ensures l != "" && '\n' !in l {
        assert l in lines;
      }
      FirstBlankLine(lines[1..]);
      assert lines[1] in lines;
      CloseStarts(lines[1..]);
      BlankAfterOne(line, rest, lines[1]);
    }
  }

  lemma CloseStarts(lines: seq<string>)
    requires lines != []
    ensures lines[0] + "\r" <= Close(lines) + "\r\n"
  {
    assert Close(lines) == lines[0] + "\r" + ("\n" + Close(lines[1..]));
  }

  predicate Blank(s: string, j: nat) {
    j + 4 <= |s| && s[j] == '\r' && s[j + 1] == '\n' && s[j + 2] == '\r' && s[j + 3] == '\n'
  }

  lemma BlankIsAt(s: string)
    ensures forall j: nat :: At(s, BLANK_LINE, j) <==> Blank(s, j)
  {
    forall j: nat ensures At(s, BLANK_LINE, j) <==> Blank(s, j) {
      if j + 4 <= |s| {
        assert s[j..j + 4] == [s[j], s[j + 1], s[j + 2], s[j + 3]];
      }
    }
  }

  lemma BlankAfterLast(line: string, rest: string)
    requires '\n' !in line && rest == "\r\n"
    ensures BlankAtEndOnly(line + "\r\n" + rest)
  {
    var s := line + "\r\n" + rest;
    BlankIsAt(s);
    forall j: nat | j < |line| ensures s[j] != '\n' {
      assert s[j] in line;
    }
    assert Blank(s, |line|);
  }

  lemma BlankAfterOne(line: string, rest: string, next: string)
    requires '\n' !in line && BlankAtEndOnly(rest)
    requires next != "" && '\n' !in next && next + "\r" <= rest
    ensures BlankAtEndOnly(line + "\r\n" + rest)
  {
    var s := line + "\r\n" + rest;
    var n := |line| + 2;
    BlankIsAt(s);
    BlankIsAt(rest);
    forall j: nat | j < |line| ensures s[j] != '\n' {
      assert s[j] in line;
    }
    assert rest[1] != '\n' by {
      assert rest[1] == (next + "\r")[1];
      assert |next| > 1 ==> next[1] in next;
    }
    forall j: nat | j < |s| - 4 ensures !Blank(s, j) {
      assert j >= n ==> !Blank(rest, j - n);
    }
    assert Blank(rest, |rest| - 4);
    assert Blank(s, |s| - 4);
  }

  lemma BlankLineEndsIt(text: string)
    requires BlankAtEndOnly(text + BLANK_LINE)
    ensures IndexOf(text + BLANK_LINE, BLANK_LINE) == Some(|text|)
  {
    IndexOfIs(text + BLANK_LINE, BLANK_LINE, |text|);
  }

  lemma ClosedByBlankLine(head: seq<string>, text: string)
    requires text == HeaderText(head) + BLANK_LINE
    ensures text == Close(head + [CLOSE_LINE]) + "\r\n"
  {
    CloseSnoc(head, CLOSE_LINE);
    assert BLANK_LINE == "\r\n" + "\r\n";
    assert text == HeaderText(head) + "\r\n" + "\r\n";
  }

  lemma HeaderTextIsFramed(head: seq<string>, authority: string)
    requires Settled(head, authority)
    ensures BlankAtEndOnly(HeaderText(head) + BLANK_LINE)
  {
    RequestLineHasNoBreak(head, authority);
    FirstBlankLine(head + [CLOSE_LINE]);
    ClosedByBlankLine(head, HeaderText(head) + BLANK_LINE);
  }

  /** The rewritten header ends at the first blank line of the bytes sent, whatever follows it. */
  lemma RewrittenHeaderIsFramed(head: seq<string>, authority: string, leftover: seq<byte>)
    requires Settled(head, authority)
    ensures IndexOf(Encode(HeaderText(head) + BLANK_LINE) + leftover, Encode(BLANK_LINE))
         == Some(|Encode(HeaderText(head))|)
  {
    HeaderTextIsFramed(head, authority);
    BlankLineEndsIt(HeaderText(head));
    FirstAsciiInBytes(HeaderText(head), BLANK_LINE, leftover);
  }

  // ---- CONNECT ----

  /** A tunnel is what a request line of three words asks for: CONNECT, where to, and a version. */
  lemma TunnelsExactly(header: string, parse: UrlParser, authority: string)
    ensures ParseHeader(header, parse) == Ok(Tunnel(authority))
       <==> && Lines(header) != [] && |Words(Lines(header)[0])| == 3
            && Words(Lines(header)[0])[0] == "CONNECT" && Words(Lines(header)[0])[1] == authority
            && |Words(Lines(header)[0])[2]| >= 5 && Words(Lines(header)[0])[2][..5] == "HTTP/"
            && Authority.Valid(authority)
  {
  }

  /** So a CONNECT to a valid authority is accepted for that authority, whatever fields follow, and one
      to another is refused. */
  lemma ConnectMeans(authority: string, version: string, fields: string, header: string, parse: UrlParser)
    requires authority != "" && NoWhitespace(authority) && NoWhitespace(version) && StartsWith(version, "HTTP/")
    requires header == RequestLine("CONNECT", authority, version) + "\r\n" + fields
    ensures ParseHeader(header, parse) == if Authority.Valid(authority) then Ok(Tunnel(authority)) else Err
  {
    var line := RequestLine("CONNECT", authority, version);
    ThreeWords("CONNECT", authority, version, line);
    forall c <- line ensures c != '\n' {
      assert c in "CONNECT" || c == ' ' || c in authority || c in version;
    }
    LinesCons(line, fields);
  }

  // ---- The reader as a whole ----

  /** What `read_proxy_request` makes of a header and the bytes after it. */
  function Interpret(header: seq<byte>, leftover: seq<byte>, parse: UrlParser): Result<ProxyRequest> {
    match Decode(header)
    case None => Err
    case Some(text) => Parse(text, leftover, parse)
  }

  /** Of every accepted request, the host and the port that routing and dialling ask for are there. */
  lemma AcceptedHasAHost(header: seq<byte>, leftover: seq<byte>, parse: UrlParser)
    requires Interpret(header, leftover, parse).Ok?
    ensures var authority := Interpret(header, leftover, parse).value.authority;
            && Authority.HostFrom(authority).Ok? && Authority.HostFrom(authority).value != ""
            && Authority.Split(authority).Ok? && Authority.Split(authority).value.1 < 0x1_0000
  {
    Authority.ValidAuthoritiesSplit(Interpret(header, leftover, parse).value.authority);
  }

  /** `read_proxy_request`: on success, the stream was split at its first blank line, after no more
      reads than that took. */
  method ReadProxyRequest(chunks: seq<Chunk>, parse: UrlParser) returns (request: Result<ProxyRequest>, used: nat)
    ensures used <= |chunks|
    ensures request.Ok? ==> Accepts(chunks)
    ensures Accepts(chunks) ==>
              var end := IndexOf(Flatten(chunks), TERMINATOR).value;
              && IsCover(chunks, used, end + 4)
              && request == Interpret(Flatten(chunks)[..end], Before(chunks, used)[end + 4..], parse)
  {
    var header, leftover;
    header, leftover, used := ReadHeader(chunks);
    if header.Err? {
      return Err, used;
    }
    FlattenSplit(chunks, used);
    assert Flatten(chunks)[..|header.value|] == header.value;
    assert Before(chunks, used)[|header.value| + 4..] == leftover;
    request := Interpret(header.value, leftover, parse);
  }

  lemma BlankLineBytes()
    ensures Encode(BLANK_LINE) == TERMINATOR
  {
    EncodeAscii(BLANK_LINE);
  }

  /** An ordinary request that is accepted is sent on as a header with exactly one `Connection` line,
      `close`, with Host lines that name its destination and no other, and with the bytes that
      followed it; the header ends where the first blank line of these bytes is. */
  lemma ForwardedBytes(header: string, leftover: seq<byte>, parse: UrlParser, authority: string, bytes: seq<byte>)
    returns (head: seq<string>)
    requires ParsesUrls(parse) && Parse(header, leftover, parse) == Ok(Http(authority, bytes))
    ensures Settled(head, authority)
    ensures bytes == Encode(HeaderText(head)) + TERMINATOR + leftover
    ensures IndexOf(bytes, TERMINATOR) == Some(|Encode(HeaderText(head))|)
    ensures var fields := Lines(HeaderText(head))[1..];
            && fields == head[1..] + [CLOSE_LINE]
            && (forall line <- head[1..] :: !Named(line, "connection"))
            && (forall line <- fields | Named(line, "host") :: line == HostLine(authority))
            && FindValue(fields, "host") == Some(authority)
  {
    head := ParseHeader(header, parse).value.head;
    RewritingSettles(header, parse, authority, head);
    RewrittenHeaderIsFramed(head, authority, leftover);
    BlankLineBytes();
    EncodeAppend(HeaderText(head), BLANK_LINE);
    SettledLines(head, authority);
    SettledFields(head, authority);
    CloseLineIsStripped(authority);
    forall line <- head[1..]
      ensures !Named(line, "connection") && (Named(line, "host") ==> line == HostLine(authority))
    {
      assert OwnLine(line, authority);
      OwnLineNames(line, authority);
    }
  }

  lemma OwnLineNames(line: string, authority: string)
    requires OwnLine(line, authority)
    ensures !Named(line, "connection")
    ensures Named(line, "host") ==> line == HostLine(authority)
  {
    if Named(line, "host") {
      HostIsKept(Trim(SplitOnce(line, ':').value.0));
      assert [line][0] == [HostLine(authority)][0];
    }
  }

  lemma SettledInterprets(head: seq<string>, authority: string, leftover: seq<byte>, parse: UrlParser)
    requires Settled(head, authority)
    ensures Interpret(Encode(HeaderText(head)), leftover, parse)
         == Ok(Http(authority, Encode(HeaderText(head)) + TERMINATOR + leftover))
  {
    DecodeOfEncoded(HeaderText(head));
    SettledStays(head, authority, parse);
    BlankLineBytes();
    EncodeAppend(HeaderText(head), BLANK_LINE);
  }

  /** Rewriting is idempotent: what is sent on parses to the same request for the same destination. */
  lemma RewritingIsIdempotent(header: string, leftover: seq<byte>, parse: UrlParser, authority: string,
                              bytes: seq<byte>)
    requires ParsesUrls(parse) && Parse(header, leftover, parse) == Ok(Http(authority, bytes))
    ensures IndexOf(bytes, TERMINATOR).Some?
    ensures var end := IndexOf(bytes, TERMINATOR).value;
            && bytes[end + 4..] == leftover
            && Interpret(bytes[..end], leftover, parse) == Ok(Http(authority, bytes))
  {
    var head := ForwardedBytes(header, leftover, parse, authority, bytes);
    var text := Encode(HeaderText(head));
    assert bytes[..|text|] == text && bytes[|text| + 4..] == leftover;
    SettledInterprets(head, authority, leftover, parse);
  }

  /** So a second proxy that reads those bytes, cut into reads anyhow but within its size limit,
      sends on, to the same place, what it has read of them, unchanged. */
  lemma SecondProxyChangesNothing(header: string, leftover: seq<byte>, parse: UrlParser, authority: string,
                                  bytes: seq<byte>, chunks: seq<Chunk>, used: nat)
    requires ParsesUrls(parse) && Parse(header, leftover, parse) == Ok(Http(authority, bytes))
    requires Flatten(chunks) == bytes && Accepts(chunks)
    requires IsCover(chunks, used, IndexOf(bytes, TERMINATOR).value + 4)
    ensures var end := IndexOf(bytes, TERMINATOR).value;
            Interpret(bytes[..end], Before(chunks, used)[end + 4..], parse) == Ok(Http(authority, Before(chunks, used)))
  {
    var head := ForwardedBytes(header, leftover, parse, authority, bytes);
    var text := Encode(HeaderText(head));
    FlattenSplit(chunks, used);
    ReadSoFar(text, leftover, bytes, Before(chunks, used), Flatten(chunks[used..]));
    SettledInterprets(head, authority, Before(chunks, used)[|text| + 4..], parse);
  }

  lemma ReadSoFar(text: seq<byte>, leftover: seq<byte>, bytes: seq<byte>, read: seq<byte>, rest: seq<byte>)
    requires bytes == text + TERMINATOR + leftover && bytes == read + rest && |read| >= |text| + 4
    ensures bytes[..|text|] == text && read == text + TERMINATOR + read[|text| + 4..]
  {
    assert read == bytes[..|read|];
    assert read[..|text| + 4] == text + TERMINATOR;
  }
}
