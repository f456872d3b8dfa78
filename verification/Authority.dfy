/** `host:port` and `[host]:port`: normalising, validating, formatting and splitting them
    (`src/http_proxy.rs`, `src/routing_rules.rs`). */
module Authority {
  import opened Wrappers
  import opened Text

  predicate ClosesAt(s: string, i: nat) {
    i + 1 < |s| && s[i] == ']' && s[i + 1] == ':'
  }

  predicate HasClosing(s: string) {
    exists i: nat | i < |s| :: ClosesAt(s, i)
  }

  /** `split_once("]:")`. */
  function SplitClosing(s: string): (split: Option<(string, string)>)
    ensures match split
            case Some((head, tail)) => s == head + "]:" + tail && forall i: nat | i < |head| :: !ClosesAt(s, i)
            case None => !HasClosing(s)
  {
    if s == "" then None
    else if ClosesAt(s, 0) then Some(("", s[2..]))
    else
      assert forall i: nat | 0 < i :: ClosesAt(s, i) <==> ClosesAt(s[1..], i - 1);
      match SplitClosing(s[1..])
      case Some((head, tail)) => Some(([s[0]] + head, tail))
      case None => None
  }

  /** `validate_authority`. */
  predicate Valid(authority: string) {
    && authority != ""
    && '/' !in authority && '@' !in authority && NoWhitespace(authority)
    && (if authority[0] == '[' then
          match SplitClosing(authority[1..])
          case Some((host, port)) => host != "" && port != "" && ParseU16(port).Some?
          case None => false
        else
          match RSplitOnce(authority, ':')
          case Some((host, port)) => host != "" && port != "" && ':' !in host && ParseU16(port).Some?
          case None => false)
  }

  /** `normalize_http_authority`, of the value of a Host header. */
  function Normalize(value: string): Result<string> {
    var host := Trim(value);
    if host == "" then
      Err
    else if host[0] == '[' then
      NormalizeBracketed(host[1..])
    else
      match RSplitOnce(host, ':')
      case Some((name, port)) =>
        if ':' in name then Err
        else if ParseU16(port).Some? then Ok(name + [':'] + port)
        else Err
      case None => Ok(host + [':'] + "80")
  }

  function NormalizeBracketed(rest: string): Result<string> {
    match SplitClosing(rest)
    case Some((ipv6, port)) => if ParseU16(port).Some? then Ok(['['] + ipv6 + "]:" + port) else Err
    case None =>
      if rest != "" && rest[|rest| - 1] == ']' then Ok(['['] + rest[..|rest| - 1] + "]:" + "80") else Err
  }

  /** `format_authority`. */
  function Format(host: string, port: nat): string {
    if ':' in host && host[0] != '[' then ['['] + host + "]:" + Decimal(port) else host + [':'] + Decimal(port)
  }

  /** `host_from_authority`. */
  function HostFrom(authority: string): Result<string> {
    if authority != "" && authority[0] == '[' then
      match SplitClosing(authority[1..])
      case Some((host, _)) => Ok(host)
      case None => Err
    else
      match RSplitOnce(authority, ':')
      case Some((host, _)) => Ok(host)
      case None => Err
  }

  /** `split_authority`. */
  function Split(authority: string): Result<(string, nat)> {
    match HostFrom(authority)
    case Err => Err
    case Ok(host) =>
      match RSplitOnce(authority, ':')
      case None => Err
      case Some((_, port)) =>
        match ParseU16(port)
        case Some(number) => Ok((host, number))
        case None => Err
  }

  // ---- Where a bracketed host ends ----

  /** The first "]:" of `host + "]:" + port` is the one after the host exactly when the host holds none. */
  lemma FirstClosing(host: string, port: string, s: string)
    requires s == host + "]:" + port
    ensures SplitClosing(s) == Some((host, port)) <==> !HasClosing(host)
    ensures SplitClosing(s).Some?
  {
    assert ClosesAt(s, |host|);
    assert forall i: nat | i < |host| :: ClosesAt(s, i) <==> ClosesAt(host, i);
    var (head, tail) := SplitClosing(s).value;
    assert ClosesAt(s, |head|);
    if |head| == |host| {
      assert s[..|head|] == head && s[..|host|] == host;
      assert s[|head| + 2..] == tail && s[|host| + 2..] == port;
    }
  }

  lemma HeadHasNoClosing(s: string)
    requires SplitClosing(s).Some?
    ensures !HasClosing(SplitClosing(s).value.0)
  {
    var head := SplitClosing(s).value.0;
    assert forall i: nat | ClosesAt(head, i) :: ClosesAt(s, i);
  }

  lemma NoColonInPort(port: string)
    requires ParseU16(port).Some?
    ensures ':' !in port && NoWhitespace(port)
  {
  }

  // ---- Properties ----

  lemma BracketedSplits(authority: string, host: string, port: string)
    requires authority == ['['] + host + "]:" + port && ParseU16(port).Some? && !HasClosing(host)
    ensures HostFrom(authority) == Ok(host)
    ensures Split(authority) == Ok((host, ParseU16(port).value))
  {
    NoColonInPort(port);
    assert authority[1..] == host + "]:" + port;
    FirstClosing(host, port, authority[1..]);
    assert authority == (['['] + host + [']']) + [':'] + port;
    RSplitOnceOf(['['] + host + [']'], ':', port, authority);
  }

  /** Whatever `validate_authority` accepts splits into a non-empty host and a 16-bit port, and is
      its own normal form. */
  lemma ValidAuthoritiesSplit(authority: string)
    requires Valid(authority)
    ensures HostFrom(authority).Ok? && HostFrom(authority).value != ""
    ensures Split(authority).Ok?
    ensures Split(authority).value.0 == HostFrom(authority).value && Split(authority).value.1 < 0x1_0000
    ensures Normalize(authority) == Ok(authority)
  {
    TrimNothing(authority);
    if authority[0] == '[' {
      var (host, port) := SplitClosing(authority[1..]).value;
      HeadHasNoClosing(authority[1..]);
      assert authority == ['['] + host + "]:" + port;
      BracketedSplits(authority, host, port);
    }
  }

  lemma NormalBracketed(host: string, port: string, a: string)
    requires a == ['['] + host + "]:" + port && ParseU16(port).Some? && !HasClosing(host)
    ensures Normalize(a) == Ok(a)
  {
    NoColonInPort(port);
    assert port[|port| - 1] in port;
    TrimIsIdentity(a);
    assert a[1..] == host + "]:" + port;
    FirstClosing(host, port, a[1..]);
  }

  lemma NormalPlain(name: string, port: string, a: string)
    requires a == name + [':'] + port && ParseU16(port).Some?
    requires ':' !in name && (name != "" ==> name[0] != '[' && !IsWhitespace(name[0]))
    ensures Normalize(a) == Ok(a)
  {
    NoColonInPort(port);
    assert port[|port| - 1] in port;
    TrimIsIdentity(a);
    RSplitOnceOf(name, ':', port, a);
  }

  lemma EightyIsAPort()
    ensures ParseU16("80") == Some(80)
  {
    assert "80"[..1] == "8";
    assert DigitsValue("8") == 8;
  }

  /** Normalising is idempotent on everything it produces. */
  lemma NormalizeTwice(value: string)
    requires Normalize(value).Ok?
    ensures Normalize(Normalize(value).value) == Normalize(value)
  {
    EightyIsAPort();
    TrimEnds(value);
    var host := Trim(value);
    var a := Normalize(value).value;
    if host[0] == '[' {
      NormalizeBracketedTwice(host[1..], a);
    } else if RSplitOnce(host, ':').Some? {
      var (name, port) := RSplitOnce(host, ':').value;
      NormalPlain(name, port, a);
    } else {
      NormalPlain(host, "80", a);
    }
  }

  lemma NormalizeBracketedTwice(rest: string, a: string)
    requires NormalizeBracketed(rest) == Ok(a)
    ensures Normalize(a) == Ok(a)
  {
    EightyIsAPort();
    match SplitClosing(rest)
    case Some((ipv6, port)) =>
      HeadHasNoClosing(rest);
      NormalBracketed(ipv6, port, a);
    case None =>
      var ipv6 := rest[..|rest| - 1];
      assert forall i: nat | ClosesAt(ipv6, i) :: ClosesAt(rest, i);
      NormalBracketed(ipv6, "80", a);
  }

  /** What can be told apart again once it stands before a port. */
  predicate WellBracketed(host: string) {
    && !HasClosing(host)
    && (host != "" && host[0] == '[' ==> |host| >= 2 && host[|host| - 1] == ']')
  }

  /** The port is what follows the last colon. */
  lemma PortIsLast(head: string, port: nat, a: string)
    requires port < 0x1_0000 && a == head + [':'] + Decimal(port)
    ensures RSplitOnce(a, ':') == Some((head, Decimal(port)))
    ensures Split(a) == if HostFrom(a).Ok? then Ok((HostFrom(a).value, port)) else Err
  {
    ParseOfDecimal(port);
    NoColonInPort(Decimal(port));
    RSplitOnceOf(head, ':', Decimal(port), a);
  }

  /** An IPv6 address is put in brackets. */
  lemma SplitOfAdded(host: string, port: nat, a: string)
    requires port < 0x1_0000 && a == Bracketed(host) + [':'] + Decimal(port)
    ensures Split(a) == Ok((host, port)) <==> !HasClosing(host)
  {
    PortIsLast(Bracketed(host), port, a);
    assert a[1..] == host + "]:" + Decimal(port);
    FirstClosing(host, Decimal(port), a[1..]);
    if HasClosing(host) {
      HeadHasNoClosing(a[1..]);
    }
  }

  /** Any other host is written as it is. */
  lemma SplitOfPlain(host: string, port: nat, a: string)
    requires port < 0x1_0000 && a == host + [':'] + Decimal(port)
    requires ':' in host ==> host[0] == '['
    ensures Split(a) == Ok((Unbracketed(host), port)) <==> WellBracketed(host)
  {
    PortIsLast(host, port, a);
    NoColonInDecimal(port);
    if host != "" && host[0] == '[' {
      SplitOfBracketed(host, Decimal(port), a);
    }
  }

  /** Splitting a formatted authority gives the port and the host without its brackets back, exactly
      for hosts whose brackets are in order; host names and IP addresses are such. */
  lemma SplitOfFormat(host: string, port: nat)
    requires port < 0x1_0000
    ensures Split(Format(host, port)) == Ok((Unbracketed(host), port)) <==> WellBracketed(host)
  {
    var a := Format(host, port);
    if ':' in host && host[0] != '[' {
      assert a == Bracketed(host) + [':'] + Decimal(port);
      SplitOfAdded(host, port, a);
    } else {
      SplitOfPlain(host, port, a);
    }
  }

  lemma SplitOfBracketed(host: string, text: string, a: string)
    requires host != "" && host[0] == '[' && a == host + [':'] + text && ':' !in text
    ensures HostFrom(a) == Ok(Unbracketed(host)) <==> WellBracketed(host)
  {
    var y := host[1..];
    assert a[1..] == y + [':'] + text;
    if y != "" && y[|y| - 1] == ']' {
      var inner := y[..|y| - 1];
      assert Unbracketed(host) == inner;
      assert a[1..] == inner + "]:" + text;
      FirstClosing(inner, text, a[1..]);
      assert forall i: nat :: ClosesAt(inner, i) <==> ClosesAt(host, i + 1);
      assert HasClosing(host) <==> HasClosing(inner) by {
        assert forall i: nat | ClosesAt(host, i) :: i > 0 && ClosesAt(inner, i - 1);
        assert forall i: nat | i < |inner| && ClosesAt(inner, i) :: ClosesAt(host, i + 1);
      }
      if HasClosing(inner) {
        HeadHasNoClosing(a[1..]);
      }
    } else {
      assert Unbracketed(host) == host;
      if SplitClosing(a[1..]).Some? {
        var (head, tail) := SplitClosing(a[1..]).value;
        assert ClosesAt(a[1..], |head|);
        assert forall i: nat | i >= |y| :: !ClosesAt(a[1..], i) by {
          forall i: nat | |y| < i < |a[1..]| ensures a[1..][i] != ':' {
            assert a[1..][i] in text;
          }
        }
        assert |head| < |host|;
      }
    }
  }

  // ---- What authorities mean ----

  /** The port of a valid authority is what follows its last colon, and brackets close before it. */
  lemma ValidBrackets(a: string) returns (host: string, port: string)
    requires Valid(a) && a[0] == '['
    ensures host != "" && !HasClosing(host) && ParseU16(port).Some?
    ensures a == Bracketed(host) + [':'] + port && ':' !in port
  {
    host, port := SplitClosing(a[1..]).value.0, SplitClosing(a[1..]).value.1;
    HeadHasNoClosing(a[1..]);
    NoColonInPort(port);
    Bracketing(host, port, a);
  }

  lemma Bracketing(host: string, port: string, a: string)
    requires a != "" && a[0] == '[' && a[1..] == host + "]:" + port
    ensures a == Bracketed(host) + [':'] + port
  {
    assert a == ['['] + a[1..];
  }

  lemma BracketedHolds(host: string)
    requires !HasClosing(host)
    ensures !HasClosing(Bracketed(host)) && WellBracketed(Bracketed(host))
  {
    assert forall i: nat | i + 1 < |Bracketed(host)| && ClosesAt(Bracketed(host), i) ::
        i > 0 && i <= |host| && i - 1 < |host| && ClosesAt(host, i - 1);
  }

  lemma SameHead(head: string, port: string, head': string, port': string, a: string)
    requires a == head + [':'] + port && ':' !in port && a == head' + [':'] + port' && ':' !in port'
    ensures head == head' && port == port'
  {
    RSplitOnceOf(head, ':', port, a);
    RSplitOnceOf(head', ':', port', a);
  }

  lemma SameBracketed(host: string, host': string)
    requires Bracketed(host) == Bracketed(host')
    ensures host == host'
  {
    assert Bracketed(host)[1..|host| + 1] == host && Bracketed(host')[1..|host'| + 1] == host';
  }

  /** What stands in brackets in a valid authority. */
  lemma ValidInBrackets(head: string, port: nat, a: string)
    requires a == head + [':'] + Decimal(port) && head != "" && head[0] == '[' && Valid(a)
    ensures port < 0x1_0000 && exists host :: !HasClosing(host) && head == Bracketed(host)
  {
    var host, text := ValidBrackets(a);
    NoColonInDecimal(port);
    SameHead(head, Decimal(port), Bracketed(host), text, a);
    DecimalFits(port);
  }

  lemma ValidPlain(head: string, port: nat, a: string)
    requires a == head + [':'] + Decimal(port) && (head != "" ==> head[0] != '[') && Valid(a)
    ensures port < 0x1_0000 && ':' !in head
  {
    var (name, text) := RSplitOnce(a, ':').value;
    NoColonInDecimal(port);
    SameHead(head, Decimal(port), name, text, a);
    DecimalFits(port);
  }

  lemma WithoutColonHolds(host: string)
    requires ':' !in host && (host != "" ==> host[0] != '[')
    ensures WellBracketed(host)
  {
    assert forall i: nat | i < |host| && ClosesAt(host, i) :: host[i + 1] in host;
  }

  /** A formatted authority that is valid splits into the host without brackets and the port. */
  lemma ValidFormatSplits(host: string, port: nat)
    requires Valid(Format(host, port))
    ensures port < 0x1_0000 && Split(Format(host, port)) == Ok((Unbracketed(host), port))
  {
    var a := Format(host, port);
    if ':' in host && host[0] != '[' {
      ValidInBrackets(Bracketed(host), port, a);
      var inner :| !HasClosing(inner) && Bracketed(host) == Bracketed(inner);
      SameBracketed(host, inner);
    } else if host != "" && host[0] == '[' {
      ValidInBrackets(host, port, a);
      var inner :| !HasClosing(inner) && host == Bracketed(inner);
      BracketedHolds(inner);
    } else {
      ValidPlain(host, port, a);
      WithoutColonHolds(host);
    }
    SplitOfFormat(host, port);
  }

  lemma DecimalFits(port: nat)
    requires ParseU16(Decimal(port)).Some?
    ensures port < 0x1_0000
  {
    ValueOfDecimal(port);
    assert IsDigit(Decimal(port)[0]);
  }

  /** A Host header of a name or a bracketed address goes to its port, or to 80 without one. */
  lemma HostHeaderMeans(name: string, port: nat)
    requires name != "" && NoWhitespace(name) && ':' !in name && name[0] != '[' && port < 0x1_0000
    ensures Normalize(name).Ok? && Split(Normalize(name).value) == Ok((name, 80))
    ensures Normalize(name + [':'] + Decimal(port)).Ok?
    ensures Split(Normalize(name + [':'] + Decimal(port)).value) == Ok((name, port))
  {
    EightyIsAPort();
    TrimNothing(name);
    NameAndPort(name, "80", name + [':'] + "80");
    var a := name + [':'] + Decimal(port);
    ParseOfDecimal(port);
    NameAndPort(name, Decimal(port), a);
    NormalPlain(name, Decimal(port), a);
  }

  lemma NameAndPort(name: string, port: string, a: string)
    requires name != "" && ':' !in name && name[0] != '[' && ParseU16(port).Some? && a == name + [':'] + port
    ensures Split(a) == Ok((name, ParseU16(port).value))
  {
    NoColonInPort(port);
    RSplitOnceOf(name, ':', port, a);
  }

  lemma BracketedHeaderMeans(address: string, port: nat, header: string)
    requires NoWhitespace(address) && ']' !in address && port < 0x1_0000
    requires header == Bracketed(address) + [':'] + Decimal(port)
    ensures Normalize(header).Ok? && Split(Normalize(header).value) == Ok((address, port))
  {
    ParseOfDecimal(port);
    assert header == ['['] + address + "]:" + Decimal(port);
    BracketedAndPort(address, Decimal(port), header);
  }

  lemma BareBracketsMean(address: string, header: string)
    requires NoWhitespace(address) && ']' !in address && header == Bracketed(address)
    ensures Normalize(header).Ok? && Split(Normalize(header).value) == Ok((address, 80))
  {
    EightyIsAPort();
    NoPortInBrackets(address);
    BracketedAndPort(address, "80", ['['] + address + "]:" + "80");
  }

  lemma BracketedAndPort(address: string, port: string, a: string)
    requires ']' !in address && ParseU16(port).Some? && a == ['['] + address + "]:" + port
    ensures Normalize(a) == Ok(a) && Split(a) == Ok((address, ParseU16(port).value))
  {
    assert forall i: nat | i < |address| && ClosesAt(address, i) :: address[i] in address;
    NormalBracketed(address, port, a);
    BracketedSplits(a, address, port);
  }

  lemma NoPortInBrackets(address: string)
    requires NoWhitespace(address) && ']' !in address
    ensures Normalize(Bracketed(address)) == Ok(['['] + address + "]:" + "80")
  {
    var host, rest := Bracketed(address), address + [']'];
    TrimNothing(host);
    assert host[1..] == rest && rest[..|address|] == address;
    NothingCloses(address, rest);
  }

  lemma ClosingIsThere(s: string)
    requires SplitClosing(s).Some?
    ensures HasClosing(s)
  {
    var (head, tail) := SplitClosing(s).value;
    assert ClosesAt(s, |head|);
  }

  lemma NothingClosesIn(address: string, rest: string)
    requires ']' !in address && rest == address + [']']
    ensures !HasClosing(rest)
  {
    assert forall i: nat | i < |rest| && i + 1 < |rest| :: rest[i] == address[i] && address[i] in address;
  }

  lemma NothingCloses(address: string, rest: string)
    requires ']' !in address && rest == address + [']']
    ensures SplitClosing(rest).None?
  {
    if SplitClosing(rest).Some? {
      ClosingIsThere(rest);
    }
    NothingClosesIn(address, rest);
  }

  /** The authorities that are accepted: a name or a bracketed address, and a port. */
  lemma NamesAreValid(name: string, port: nat, a: string)
    requires name != "" && NoWhitespace(name) && port < 0x1_0000 && a == name + [':'] + Decimal(port)
    requires '/' !in name && '@' !in name && ':' !in name && name[0] != '['
    ensures Valid(a)
  {
    ParseOfDecimal(port);
    PlainText(port);
    RSplitOnceOf(name, ':', Decimal(port), a);
    forall c <- a ensures c != '/' && c != '@' && !IsWhitespace(c) {
      assert c in name || c == ':' || c in Decimal(port);
    }
  }

  lemma PlainText(port: nat)
    ensures NoWhitespace(Decimal(port)) && '/' !in Decimal(port) && '@' !in Decimal(port) && ':' !in Decimal(port)
  {
    assert AllDigits(Decimal(port));
  }

  lemma BracketedAreValid(address: string, port: nat, a: string)
    requires address != "" && NoWhitespace(address) && port < 0x1_0000
    requires a == Bracketed(address) + [':'] + Decimal(port)
    requires '/' !in address && '@' !in address && ']' !in address
    ensures Valid(a)
  {
    ParseOfDecimal(port);
    PlainText(port);
    assert forall i: nat | i < |address| && ClosesAt(address, i) :: address[i] in address;
    assert a[1..] == address + "]:" + Decimal(port);
    FirstClosing(address, Decimal(port), a[1..]);
    forall c <- a ensures c != '/' && c != '@' && !IsWhitespace(c) {
      assert c == '[' || c in address || c == ']' || c == ':' || c in Decimal(port);
    }
  }
}
