/** What rewriting does to the meaning of a header: its fields, as name and values. */
module HttpFields {
  import opened Wrappers
  import opened Text
  import opened HttpProxy
  import Authority

  /** The values of all fields of a name (in lower case), in order. */
  function Values(fields: seq<string>, name: string): seq<string> {
    if fields == [] then [] else LineValues(fields[0], name) + Values(fields[1..], name)
  }

  function LineValues(line: string, name: string): seq<string> {
    if Named(line, name) then [Trim(SplitOnce(line, ':').value.1)] else []
  }

  lemma {:induction false} ValuesAppend(a: seq<string>, b: seq<string>, name: string)
    ensures Values(a + b, name) == Values(a, name) + Values(b, name)
  {
    if a == [] {
      assert a + b == b;
    } else {
      assert (a + b)[1..] == a[1..] + b;
      ValuesAppend(a[1..], b, name);
    }
  }

  lemma OneLine(line: string, name: string)
    ensures Values([line], name) == LineValues(line, name)
  {
    assert LineValues(line, name) + [] == LineValues(line, name);
  }

  lemma NamedBy(line: string, name: string, value: string)
    requires line == name + [':'] + value && ':' !in name
    ensures forall n :: LineValues(line, n) == if IsName(Trim(name), n) then [Trim(value)] else []
  {
    SplitOnceOf(name, ':', value, line);
  }

  lemma SpacedValue(line: string, written: string, value: string, lower: string, name: string)
    requires line == written + [':'] + ([' '] + value) && ':' !in written && NoWhitespace(value)
    requires Trim(written) == written && IsName(written, lower)
    ensures LineValues(line, name) == if name == lower then [value] else []
  {
    NamedBy(line, written, [' '] + value);
    TrimOneSpace(value);
  }

  lemma HostValue(authority: string, name: string)
    requires NoWhitespace(authority)
    ensures LineValues(HostLine(authority), name) == if name == "host" then [authority] else []
  {
    HostLineParts(authority);
    SpacedValue(HostLine(authority), "Host", authority, "host", name);
  }

  lemma CloseLineParts()
    ensures CLOSE_LINE == "Connection" + [':'] + ([' '] + "close") && NoWhitespace("close")
    ensures Trim("Connection") == "Connection" && ':' !in "Connection" && IsName("Connection", "connection")
  {
    TrimNothing("Connection");
  }

  lemma CloseValue(name: string)
    ensures LineValues(CLOSE_LINE, name) == if name == "connection" then ["close"] else []
  {
    CloseLineParts();
    SpacedValue(CLOSE_LINE, "Connection", "close", "connection", name);
  }

  /** What one line's values become. */
  function Expected(values: seq<string>, name: string, authority: string): seq<string> {
    if ShouldStrip(name) then [] else if name == "host" then seq(|values|, _ => authority) else values
  }

  lemma StripsByName(s: string, name: string)
    requires IsName(s, name)
    ensures Lower(name) == name && (ShouldStrip(s) <==> ShouldStrip(name))
  {
  }

  lemma OneLineRewritten(line: string, authority: string, name: string)
    requires NoWhitespace(authority) && RewriteLine(line, authority).Ok?
    ensures Values(RewriteLine(line, authority).value, name) == Expected(LineValues(line, name), name, authority)
  {
    if line != "" {
      var (head, value) := SplitOnce(line, ':').value;
      var own := Trim(head);
      NamedBy(line, head, value);
      if IsName(own, name) {
        StripsByName(own, name);
      }
      if !ShouldStrip(own) {
        if IsName(own, "host") {
          HostValue(authority, name);
          OneLine(HostLine(authority), name);
        } else {
          TrimEnds(head);
          TrimTwice(head);
          NamedBy(own + [':'] + value, own, value);
          OneLine(own + [':'] + value, name);
        }
      }
    }
  }

  lemma ExpectedAppend(a: seq<string>, b: seq<string>, name: string, authority: string)
    ensures Expected(a + b, name, authority) == Expected(a, name, authority) + Expected(b, name, authority)
  {
  }

  lemma {:induction false} LinesRewritten(fields: seq<string>, authority: string, name: string)
    requires NoWhitespace(authority) && RewriteLines(fields, authority).Ok?
    ensures Values(RewriteLines(fields, authority).value, name) == Expected(Values(fields, name), name, authority)
  {
    if fields != [] {
      OneLineRewritten(fields[0], authority, name);
      LinesRewritten(fields[1..], authority, name);
      ValuesAppend(RewriteLine(fields[0], authority).value, RewriteLines(fields[1..], authority).value, name);
      ExpectedAppend(LineValues(fields[0], name), Values(fields[1..], name), name, authority);
    }
  }

  lemma {:induction false} NoHostNoValues(fields: seq<string>)
    ensures FindValue(fields, "host").None? <==> Values(fields, "host") == []
  {
    if fields != [] {
      NoHostNoValues(fields[1..]);
    }
  }

  /** The values a field has after rewriting: Connection is `close`, the other fields of one hop are
      gone, every Host is the destination and there is one, and all others have the values they had. */
  function Forwarded(values: seq<string>, name: string, authority: string): seq<string> {
    if name == "connection" then ["close"]
    else if name == "host" && values == [] then [authority]
    else Expected(values, name, authority)
  }

  lemma LinesOfHead(kept: seq<string>, host: seq<string>, name: string)
    ensures Values(kept + host + [CLOSE_LINE], name)
         == Values(kept, name) + Values(host, name) + LineValues(CLOSE_LINE, name)
  {
    ValuesAppend(kept + host, [CLOSE_LINE], name);
    ValuesAppend(kept, host, name);
    OneLine(CLOSE_LINE, name);
  }

  lemma HostAdded(fields: seq<string>, authority: string, name: string)
    requires NoWhitespace(authority)
    ensures Values(if FindValue(fields, "host").None? then [HostLine(authority)] else [], name)
         == if name == "host" && Values(fields, "host") == [] then [authority] else []
  {
    NoHostNoValues(fields);
    HostValue(authority, name);
    OneLine(HostLine(authority), name);
  }

  lemma StripsConnectionOnly()
    ensures ShouldStrip("connection") && !ShouldStrip("host")
  {
  }

  lemma InAll(values: seq<string>, name: string, authority: string, kept: seq<string>, host: seq<string>,
              close: seq<string>)
    requires kept == Expected(values, name, authority)
    requires host == if name == "host" && values == [] then [authority] else []
    requires close == if name == "connection" then ["close"] else []
    ensures kept + host + close == Forwarded(values, name, authority)
  {
    StripsConnectionOnly();
  }

  lemma FieldsRewritten(fields: seq<string>, requestLine: string, authority: string, head: seq<string>, name: string)
    requires NoWhitespace(authority) && RewriteFields(fields, requestLine, authority) == Ok(head)
    ensures head != [] && head[0] == requestLine
    ensures Values(head[1..] + [CLOSE_LINE], name) == Forwarded(Values(fields, name), name, authority)
  {
    var kept := RewriteLines(fields, authority).value;
    var host := if FindValue(fields, "host").None? then [HostLine(authority)] else [];
    assert head[1..] == kept + host;
    LinesOfHead(kept, host, name);
    LinesRewritten(fields, authority, name);
    HostAdded(fields, authority, name);
    CloseValue(name);
    InAll(Values(fields, name), name, authority, Values(kept, name), Values(host, name), LineValues(CLOSE_LINE, name));
  }

  lemma {:induction false} FirstValue(fields: seq<string>, name: string)
    ensures FindValue(fields, name) == if Values(fields, name) == [] then None else Some(Values(fields, name)[0])
  {
    if fields != [] {
      FirstValue(fields[1..], name);
    }
  }

  /** Where an absolute target leads, and what is left of it. */
  lemma AbsoluteMeans(target: string, fields: seq<string>, parse: UrlParser, authority: string, origin: string)
    requires IsAbsolute(target) && Destination(target, fields, parse) == Ok((authority, origin))
    requires Authority.Valid(authority)
    ensures parse(target).Some?
    ensures var url := parse(target).value;
            && url.scheme == "http" && url.username == "" && url.password == None && url.host.Some?
            && Authority.Split(authority)
               == Ok((Unbracketed(url.host.value), if url.port.Some? then url.port.value else 80))
            && origin == (if url.path == "" then "/" else url.path)
                         + (if url.query.Some? then "?" + url.query.value else "")
  {
    var url := parse(target).value;
    Authority.ValidFormatSplits(url.host.value, if url.port.Some? then url.port.value else 80);
  }

  /** What an ordinary request means is kept: the method, the version and the values of every field
      but those that concern one hop only. An absolute target names the destination and leaves its path
      and query; of any other, the first Host field names it. */
  lemma MeaningIsKept(header: string, parse: UrlParser, authority: string, head: seq<string>, name: string)
    requires ParsesUrls(parse) && ParseHeader(header, parse) == Ok(Forward(authority, head))
    ensures var before, after := Lines(header), Lines(HeaderText(head));
            && before != [] && after != []
            && |Words(before[0])| == 3 && |Words(after[0])| == 3
            && Words(after[0])[0] == Words(before[0])[0] && Words(after[0])[2] == Words(before[0])[2]
            && Values(after[1..], name) == Forwarded(Values(before[1..], name), name, authority)
            && TargetIsKept(Words(before[0])[1], Words(after[0])[1], Values(before[1..], "host"), parse, authority)
  {
    RewritingSettles(header, parse, authority, head);
    SettledLines(head, authority);
    var lines := Lines(header);
    var words := Words(lines[0]);
    assert words[0] in words && words[1] in words && words[2] in words;
    var (a, origin) := Destination(words[1], lines[1..], parse).value;
    OriginForm(words[1], lines[1..], parse);
    ThreeWords(words[0], origin, words[2], RequestLine(words[0], origin, words[2]));
    FieldsRewritten(lines[1..], RequestLine(words[0], origin, words[2]), authority, head, name);
    TargetMeans(words[1], lines[1..], parse, authority, origin);
  }

  /** What is asked of whom, in terms of the URL or of the Host fields. */
  predicate TargetIsKept(target: string, sent: string, hosts: seq<string>, parse: UrlParser, authority: string) {
    if StartsWith(target, "http://") || StartsWith(target, "https://") then
      && parse(target).Some?
      && var url := parse(target).value;
         && url.scheme == "http" && url.username == "" && url.password == None && url.host.Some?
         && Authority.Split(authority)
            == Ok((Unbracketed(url.host.value), if url.port.Some? then url.port.value else 80))
         && sent == (if url.path == "" then "/" else url.path)
                    + (if url.query.Some? then "?" + url.query.value else "")
    else
      sent == target && hosts != [] && Authority.Normalize(hosts[0]) == Ok(authority)
  }

  lemma TargetMeans(target: string, fields: seq<string>, parse: UrlParser, authority: string, origin: string)
    requires Destination(target, fields, parse) == Ok((authority, origin)) && Authority.Valid(authority)
    ensures TargetIsKept(target, origin, Values(fields, "host"), parse, authority)
  {
    FirstValue(fields, "host");
    if IsAbsolute(target) {
      AbsoluteMeans(target, fields, parse, authority, origin);
    }
  }

  // ---- Names ----

  /** The fields of one hop, by name. */
  lemma HopByHopNames(name: string)
    requires Lower(name) == name
    ensures ShouldStrip(name) <==>
              name in {"connection", "keep-alive", "proxy-authenticate", "proxy-authorization", "proxy-connection",
                       "te", "trailer", "upgrade"}
  {
  }

  /** Of the fields of an ordinary request, those named here are dropped, Connection is `close`, every
      Host is the destination, and all others have the values they had. */
  lemma FieldByField(header: string, parse: UrlParser, authority: string, head: seq<string>, name: string)
    requires ParsesUrls(parse) && ParseHeader(header, parse) == Ok(Forward(authority, head)) && Lower(name) == name
    ensures Lines(header) != [] && Lines(HeaderText(head)) != []
    ensures var before, after := Values(Lines(header)[1..], name), Values(Lines(HeaderText(head))[1..], name);
            if name == "connection" then
              after == ["close"]
            else if name == "host" then
              after != [] && (before != [] ==> |after| == |before|) && forall value <- after :: value == authority
            else if name in {"keep-alive", "proxy-authenticate", "proxy-authorization", "proxy-connection", "te",
                             "trailer", "upgrade"} then
              after == []
            else
              after == before
  {
    MeaningIsKept(header, parse, authority, head, name);
    HopByHopNames(name);
  }
}
