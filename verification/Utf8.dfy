/** UTF-8 (RFC 3629, section 3): text as the bytes the sockets carry. */
module Utf8 {
  import opened Wrappers
  import opened Text

  newtype byte = x: int | 0 <= x < 256

  /** A byte below 0x80 is a character by itself; all others of a character are not below it. */
  predicate IsUnit(bytes: seq<byte>) {
    && bytes != []
    && (bytes[0] < 0x80 ==> |bytes| == 1)
    && forall i | 0 < i < |bytes| :: bytes[i] >= 0x80
  }

  function EncodeChar(c: char): (bytes: seq<byte>)
    ensures IsUnit(bytes)
    ensures c as int < 0x80 ==> |bytes| == 1 && bytes[0] as int == c as int
    ensures bytes[0] < 0x80 ==> c as int < 0x80
  {
    var code := c as int;
    if code < 0x80 then
      [code as byte]
    else if code < 0x800 then
      [(0xC0 + code / 0x40) as byte, (0x80 + code % 0x40) as byte]
    else if code < 0x1_0000 then
      [(0xE0 + code / 0x1000) as byte, (0x80 + code / 0x40 % 0x40) as byte, (0x80 + code % 0x40) as byte]
    else
      [(0xF0 + code / 0x4_0000) as byte, (0x80 + code / 0x1000 % 0x40) as byte,
       (0x80 + code / 0x40 % 0x40) as byte, (0x80 + code % 0x40) as byte]
  }

  predicate IsContinuation(b: byte) {
    0x80 <= b <= 0xBF
  }

  /** The table of section 3 of RFC 3629: which bytes stand for which code point. */
  lemma EncodingTable(c: char)
    ensures var b, code := EncodeChar(c), c as int;
            if code <= 0x7F then
              |b| == 1 && b[0] as int == code
            else if code <= 0x7FF then
              && |b| == 2 && 0xC2 <= b[0] <= 0xDF && IsContinuation(b[1])
              && code == (b[0] as int - 0xC0) * 64 + (b[1] as int - 0x80)
            else if code <= 0xFFFF then
              && |b| == 3 && 0xE0 <= b[0] <= 0xEF && IsContinuation(b[1]) && IsContinuation(b[2])
              && code == (b[0] as int - 0xE0) * 4096 + (b[1] as int - 0x80) * 64 + (b[2] as int - 0x80)
            else
              && |b| == 4 && 0xF0 <= b[0] <= 0xF4
              && IsContinuation(b[1]) && IsContinuation(b[2]) && IsContinuation(b[3])
              && code == (b[0] as int - 0xF0) * 262144 + (b[1] as int - 0x80) * 4096 + (b[2] as int - 0x80) * 64
                         + (b[3] as int - 0x80)
  {
    CandidateOfEncoded(c, []);
    assert EncodeChar(c) + [] == EncodeChar(c);
  }

  function Units(s: string): (units: seq<seq<byte>>)
    ensures |units| == |s| && forall i | 0 <= i < |s| :: units[i] == EncodeChar(s[i])
  {
    seq(|s|, i requires 0 <= i < |s| => EncodeChar(s[i]))
  }

  /** Text as bytes. */
  function Encode(s: string): seq<byte> {
    Flatten(Units(s))
  }

  lemma EncodeAppend(a: string, b: string)
    ensures Encode(a + b) == Encode(a) + Encode(b)
  {
    assert Units(a + b) == Units(a) + Units(b);
    FlattenAppend(Units(a), Units(b));
  }

  lemma EncodeCons(s: string)
    requires s != ""
    ensures Encode(s) == EncodeChar(s[0]) + Encode(s[1..])
  {
    assert Units(s)[1..] == Units(s[1..]);
  }

  /** The code point the leading bytes of `b` would stand for. */
  function Candidate(b: seq<byte>): int
    requires b != []
  {
    var lead := b[0] as int;
    if lead < 0x80 then lead
    else if lead < 0xE0 then
      if |b| < 2 then -1 else (lead - 0xC0) * 0x40 + (b[1] as int - 0x80)
    else if lead < 0xF0 then
      if |b| < 3 then -1 else (lead - 0xE0) * 0x1000 + (b[1] as int - 0x80) * 0x40 + (b[2] as int - 0x80)
    else
      if |b| < 4 then -1
      else (lead - 0xF0) * 0x4_0000 + (b[1] as int - 0x80) * 0x1000 + (b[2] as int - 0x80) * 0x40 + (b[3] as int - 0x80)
  }

  predicate IsScalar(code: int) {
    0 <= code < 0xD800 || 0xE000 <= code < 0x11_0000
  }

  /** The character `b` starts with, if it starts with a well-formed one, and the bytes after it. */
  function DecodeChar(b: seq<byte>): (split: Option<(char, seq<byte>)>)
    requires b != []
    ensures split.Some? ==> EncodeChar(split.value.0) + split.value.1 == b
    ensures split.Some? ==> |split.value.1| < |b|
  {
    var code := Candidate(b);
    if IsScalar(code) && EncodeChar(code as char) <= b then
      Some((code as char, b[|EncodeChar(code as char)|..]))
    else
      None
  }

  lemma EncodeMore(c: char, rest: string)
    ensures Encode([c] + rest) == EncodeChar(c) + Encode(rest)
  {
    EncodeCons([c] + rest);
    assert ([c] + rest)[1..] == rest;
  }

  /** `str::from_utf8`. */
  function Decode(b: seq<byte>): (s: Option<string>)
    ensures s.Some? ==> Encode(s.value) == b
    decreases |b|
  {
    if b == [] then
      Some("")
    else
      match DecodeChar(b)
      case None => None
      case Some((c, bytes)) =>
        match Decode(bytes)
        case None => None
        case Some(rest) =>
          EncodeMore(c, rest);
          Some([c] + rest)
  }

  lemma CandidateOfEncoded(c: char, rest: seq<byte>)
    ensures Candidate(EncodeChar(c) + rest) == c as int
  {
    var code := c as int;
    if code >= 0x1_0000 {
      assert code / 0x1000 == code / 0x4_0000 * 0x40 + code / 0x1000 % 0x40;
      assert code / 0x40 == code / 0x1000 * 0x40 + code / 0x40 % 0x40;
    } else if code >= 0x800 {
      assert code / 0x40 == code / 0x1000 * 0x40 + code / 0x40 % 0x40;
    }
  }

  lemma {:induction false} DecodeOfEncoded(s: string)
    ensures Decode(Encode(s)) == Some(s)
  {
    if s != "" {
      EncodeCons(s);
      DecodeOfEncoded(s[1..]);
      DecodeFirst(s[0], Encode(s[1..]), s[1..]);
      assert s == [s[0]] + s[1..];
    }
  }

  lemma DecodeFirst(c: char, bytes: seq<byte>, s: string)
    requires Decode(bytes) == Some(s)
    ensures Decode(EncodeChar(c) + bytes) == Some([c] + s)
  {
    CandidateOfEncoded(c, bytes);
    assert (EncodeChar(c) + bytes)[|EncodeChar(c)|..] == bytes;
  }

  // ---- ASCII among encoded text ----

  predicate IsAscii(s: string) {
    forall c <- s :: c as int < 0x80
  }

  lemma {:induction false} EncodeAscii(s: string)
    requires IsAscii(s)
    ensures |Encode(s)| == |s| && forall i | 0 <= i < |s| :: Encode(s)[i] as int == s[i] as int
  {
    if s != "" {
      assert s[0] in s && forall c <- s[1..] :: c in s;
      EncodeCons(s);
      EncodeAscii(s[1..]);
    }
  }

  lemma {:induction false} AsciiPrefix(units: seq<seq<byte>>, pattern: seq<byte>)
    requires forall u <- units :: IsUnit(u)
    requires (forall b <- pattern :: b < 0x80) && pattern <= Flatten(units)
    ensures |pattern| <= |units| && forall i | 0 <= i < |pattern| :: units[i] == [pattern[i]]
  {
    if pattern != [] {
      assert units != [] && IsUnit(units[0]);
      assert Flatten(units)[0] == units[0][0] == pattern[0];
      assert pattern[0] in pattern && forall b <- pattern[1..] :: b in pattern;
      assert units[0] == [pattern[0]];
      assert Flatten(units)[1..] == Flatten(units[1..]);
      assert forall u <- units[1..] :: u in units;
      AsciiPrefix(units[1..], pattern[1..]);
      assert forall i | 0 < i < |pattern| :: units[i] == units[1..][i - 1] && pattern[i] == pattern[1..][i - 1];
    }
  }

  lemma PastTheFirst(first: seq<byte>, rest: seq<byte>, pattern: seq<byte>, j: nat)
    requires At(first + rest, pattern, j) && j >= |first|
    ensures At(rest, pattern, j - |first|)
  {
    assert rest[j - |first|..j - |first| + |pattern|] == (first + rest)[j..j + |pattern|];
  }

  /** ASCII found among the bytes of encoded text is made of whole characters: no byte of a longer
      character can be taken for it. */
  lemma {:induction false} AsciiInUnits(units: seq<seq<byte>>, pattern: seq<byte>, j: nat) returns (k: nat)
    requires forall u <- units :: IsUnit(u)
    requires pattern != [] && (forall b <- pattern :: b < 0x80) && At(Flatten(units), pattern, j)
    ensures k + |pattern| <= |units| && j == |Flatten(units[..k])|
    ensures forall i | 0 <= i < |pattern| :: units[k + i] == [pattern[i]]
    decreases |units|
  {
    assert pattern[0] in pattern;
    if j == 0 {
      assert Flatten(units)[..|pattern|] == pattern;
      AsciiPrefix(units, pattern);
      k := 0;
    } else {
      assert units != [] && IsUnit(units[0]);
      assert Flatten(units)[j] == pattern[0];
      PastTheFirst(units[0], Flatten(units[1..]), pattern, j);
      assert forall u <- units[1..] :: u in units;
      var l := AsciiInUnits(units[1..], pattern, j - |units[0]|);
      k := l + 1;
      OneUnitOn(units, pattern, l);
    }
  }

  lemma OneUnitOn(units: seq<seq<byte>>, pattern: seq<byte>, l: nat)
    requires units != [] && l + |pattern| <= |units[1..]|
    requires forall i | 0 <= i < |pattern| :: units[1..][l + i] == [pattern[i]]
    ensures |Flatten(units[..l + 1])| == |units[0]| + |Flatten(units[1..][..l])|
    ensures forall i | 0 <= i < |pattern| :: units[l + 1 + i] == [pattern[i]]
  {
    assert units[..l + 1][1..] == units[1..][..l];
    forall i | 0 <= i < |pattern| ensures units[l + 1 + i] == [pattern[i]] {
      assert units[l + 1 + i] == units[1..][l + i];
    }
  }

  lemma AsciiBytes(pattern: string)
    requires IsAscii(pattern)
    ensures forall b <- Encode(pattern) :: b < 0x80
  {
    EncodeAscii(pattern);
    forall b <- Encode(pattern) ensures b < 0x80 {
      var i :| 0 <= i < |pattern| && Encode(pattern)[i] == b;
      assert pattern[i] in pattern;
    }
  }

  lemma CharsOfUnits(s: string, pattern: string, k: nat)
    requires IsAscii(pattern) && k + |pattern| <= |s| && |Encode(pattern)| == |pattern|
    requires forall i | 0 <= i < |pattern| :: Units(s)[k + i] == [Encode(pattern)[i]]
    ensures At(s, pattern, k)
  {
    EncodeAscii(pattern);
    forall i | 0 <= i < |pattern| ensures s[k + i] == pattern[i] {
      assert Units(s)[k + i] == EncodeChar(s[k + i]);
      assert pattern[i] in pattern;
      OneByte(s[k + i], pattern[i]);
    }
  }

  lemma AsciiInText(s: string, pattern: string, j: nat) returns (k: nat)
    requires IsAscii(pattern) && pattern != "" && At(Encode(s), Encode(pattern), j)
    ensures k <= |s| && j == |Encode(s[..k])| && At(s, pattern, k)
  {
    EncodeAscii(pattern);
    AsciiBytes(pattern);
    k := AsciiInUnits(Units(s), Encode(pattern), j);
    assert Units(s)[..k] == Units(s[..k]);
    CharsOfUnits(s, pattern, k);
  }

  lemma OneByte(c: char, d: char)
    requires d as int < 0x80 && |EncodeChar(c)| == 1 && EncodeChar(c)[0] as int == d as int
    ensures c == d
  {
  }

  lemma EncodeGrows(s: string, k: nat, l: nat)
    requires k <= l <= |s|
    ensures |Encode(s[..k])| <= |Encode(s[..l])|
  {
    EncodeAppend(s[..k], s[k..l]);
    assert s[..l] == s[..k] + s[k..l];
  }

  lemma NotEarlier(head: string, pattern: string, j: nat)
    requires IsAscii(pattern) && pattern != "" && IndexOf(head + pattern, pattern) == Some(|head|)
    requires At(Encode(head + pattern), Encode(pattern), j)
    ensures j >= |Encode(head)|
  {
    var s := head + pattern;
    var k := AsciiInText(s, pattern, j);
    EncodeGrows(s, |head|, k);
    assert s[..|head|] == head;
  }

  /** The first ASCII `pattern` of encoded text followed by anything, when the text ends with it. */
  lemma FirstAsciiInBytes(head: string, pattern: string, rest: seq<byte>)
    requires IsAscii(pattern) && pattern != "" && IndexOf(head + pattern, pattern) == Some(|head|)
    ensures IndexOf(Encode(head + pattern) + rest, Encode(pattern)) == Some(|Encode(head)|)
  {
    EncodeAppend(head, pattern);
    var bytes := Encode(head + pattern);
    var p := Encode(pattern);
    assert bytes[|Encode(head)|..] == p;
    forall j: nat | j < |Encode(head)| ensures !At(bytes, p, j) {
      if At(bytes, p, j) {
        NotEarlier(head, pattern, j);
      }
    }
    IndexOfIs(bytes, p, |Encode(head)|);
    assert (bytes + rest)[|Encode(head)|..|bytes|] == p;
    IndexOfPrefix(bytes, rest, p);
  }
}
