/** The string operations of the source's standard library, on sequences of Unicode scalar values. */
module Text {
  import opened Wrappers

  // ---- Searching ----

  predicate At<T(==)>(s: seq<T>, pattern: seq<T>, i: nat) {
    i + |pattern| <= |s| && s[i..i + |pattern|] == pattern
  }

  function IndexFrom<T(==)>(s: seq<T>, pattern: seq<T>, i: nat): (index: Option<nat>)
    requires i <= |s|
    ensures index.Some? ==> i <= index.value && At(s, pattern, index.value)
    ensures forall j | i <= j && (index.Some? ==> j < index.value) :: !At(s, pattern, j)
    decreases |s| - i
  {
    if At(s, pattern, i) then Some(i)
    else if i == |s| then None
    else IndexFrom(s, pattern, i + 1)
  }

  /** The first place where `pattern` stands in `s`. */
  function IndexOf<T(==)>(s: seq<T>, pattern: seq<T>): (index: Option<nat>)
    ensures index.Some? ==> At(s, pattern, index.value)
    ensures forall j: nat | index.Some? ==> j < index.value :: !At(s, pattern, j)
  {
    IndexFrom(s, pattern, 0)
  }

  lemma IndexOfIs<T>(s: seq<T>, pattern: seq<T>, i: nat)
    requires At(s, pattern, i) && forall j: nat | j < i :: !At(s, pattern, j)
    ensures IndexOf(s, pattern) == Some(i)
  {
  }

  /** A first occurrence is one in every longer sequence, and the other way round when it fits. */
  lemma IndexOfPrefix<T>(s: seq<T>, rest: seq<T>, pattern: seq<T>)
    ensures match IndexOf(s + rest, pattern)
            case Some(i) => IndexOf(s, pattern) == (if i + |pattern| <= |s| then Some(i) else None)
            case None => IndexOf(s, pattern) == None
  {
    forall j: nat ensures At(s, pattern, j) <==> At(s + rest, pattern, j) && j + |pattern| <= |s| {
      if j + |pattern| <= |s| {
        assert (s + rest)[j..j + |pattern|] == s[j..j + |pattern|];
      }
    }
    match IndexOf(s + rest, pattern)
    case Some(i) => if i + |pattern| <= |s| { IndexOfIs(s, pattern, i); }
    case None =>
  }

  /** `split_once` at one character. */
  function SplitOnce(s: string, c: char): (split: Option<(string, string)>)
    ensures match split
            case Some((head, tail)) => s == head + [c] + tail && c !in head
            case None => c !in s
  {
    if s == "" then None
    else if s[0] == c then Some(("", s[1..]))
    else
      match SplitOnce(s[1..], c)
      case Some((head, tail)) => Some(([s[0]] + head, tail))
      case None => None
  }

  /** `rsplit_once` at one character. */
  function RSplitOnce(s: string, c: char): (split: Option<(string, string)>)
    ensures match split
            case Some((head, tail)) => s == head + [c] + tail && c !in tail
            case None => c !in s
  {
    if s == "" then None
    else
      var last := |s| - 1;
      if s[last] == c then Some((s[..last], ""))
      else
        assert s == s[..last] + [s[last]];
        match RSplitOnce(s[..last], c)
        case Some((head, tail)) => Some((head, tail + [s[last]]))
        case None => None
  }

  predicate StartsWith(s: string, prefix: string) {
    |prefix| <= |s| && s[..|prefix|] == prefix
  }

  /** There is one way to split at the first `c`, and one at the last. */
  lemma SplitOnceOf(head: string, c: char, tail: string, s: string)
    requires s == head + [c] + tail && c !in head
    ensures SplitOnce(s, c) == Some((head, tail))
  {
    assert s[|head|] == c;
    var (h, t) := SplitOnce(s, c).value;
    assert s[|h|] == c;
    assert forall k | 0 <= k < |head| :: s[k] in head;
    assert forall k | 0 <= k < |h| :: s[k] in h;
    assert |h| == |head|;
    assert s[..|h|] == h && s[..|head|] == head;
    assert s[|h| + 1..] == t && s[|head| + 1..] == tail;
  }

  lemma RSplitOnceOf(head: string, c: char, tail: string, s: string)
    requires s == head + [c] + tail && c !in tail
    ensures RSplitOnce(s, c) == Some((head, tail))
  {
    assert s[|head|] == c;
    var (h, t) := RSplitOnce(s, c).value;
    assert s[|h|] == c;
    assert forall k | |head| < k < |s| :: s[k] in tail;
    assert forall k | |h| < k < |s| :: s[k] in t;
    assert |h| == |head|;
    assert s[..|h|] == h && s[..|head|] == head;
    assert s[|h| + 1..] == t && s[|head| + 1..] == tail;
  }

  // ---- Concatenation ----

  function Flatten<T>(units: seq<seq<T>>): seq<T> {
    if units == [] then [] else units[0] + Flatten(units[1..])
  }

  lemma {:induction false} FlattenAppend<T>(a: seq<seq<T>>, b: seq<seq<T>>)
    ensures Flatten(a + b) == Flatten(a) + Flatten(b)
  {
    if a == [] {
      assert a + b == b;
    } else {
      assert (a + b)[1..] == a[1..] + b;
      FlattenAppend(a[1..], b);
    }
  }

  // ---- Trimming ----

  /** Unicode `White_Space`. */
  predicate IsWhitespace(c: char) {
    || '\t' <= c <= '\r' || c == ' ' || c == '\U{85}' || c == '\U{A0}' || c == '\U{1680}'
    || '\U{2000}' <= c <= '\U{200A}' || c == '\U{2028}' || c == '\U{2029}' || c == '\U{202F}'
    || c == '\U{205F}' || c == '\U{3000}'
  }

  /** By code point. */
  lemma WhitespaceByCode(c: char)
    ensures IsWhitespace(c) <==>
              || 9 <= c as int <= 13
              || 8192 <= c as int <= 8202
              || c as int in {32, 133, 160, 5760, 8232, 8233, 8239, 8287, 12288}
  {
  }

  predicate NoWhitespace(s: string) {
    forall c <- s :: !IsWhitespace(c)
  }

  /** `str::trim`. */
  function Trim(s: string): (r: string)
    ensures |r| <= |s|
  {
    if s == "" then ""
    else if IsWhitespace(s[0]) then Trim(s[1..])
    else if IsWhitespace(s[|s| - 1]) then Trim(s[..|s| - 1])
    else s
  }

  lemma {:induction false} TrimEnds(s: string)
    ensures var r := Trim(s); r != "" ==> !IsWhitespace(r[0]) && !IsWhitespace(r[|r| - 1])
    ensures forall c <- Trim(s) :: c in s
  {
    if s != "" {
      if IsWhitespace(s[0]) {
        TrimEnds(s[1..]);
      } else if IsWhitespace(s[|s| - 1]) {
        TrimEnds(s[..|s| - 1]);
      }
    }
  }

  /** Nothing is trimmed exactly when neither end is whitespace. */
  lemma TrimIsIdentity(s: string)
    ensures Trim(s) == s <==> s == "" || (!IsWhitespace(s[0]) && !IsWhitespace(s[|s| - 1]))
    ensures |Trim(s)| == |s| ==> Trim(s) == s
  {
  }

  lemma TrimNothing(s: string)
    requires NoWhitespace(s)
    ensures Trim(s) == s
  {
    if s != "" {
      assert s[0] in s && s[|s| - 1] in s;
    }
  }

  lemma TrimTwice(s: string)
    ensures Trim(Trim(s)) == Trim(s)
  {
    TrimEnds(s);
  }

  function SkipWhitespace(s: string): (r: string)
    ensures |r| <= |s| && (r != "" ==> !IsWhitespace(r[0]))
  {
    if s != "" && IsWhitespace(s[0]) then SkipWhitespace(s[1..]) else s
  }

  // ---- ASCII case ----

  function LowerChar(c: char): char {
    if 'A' <= c <= 'Z' then (c as int + 32) as char else c
  }

  /** `to_ascii_lowercase`. */
  function Lower(s: string): (r: string)
    ensures |r| == |s| && forall i | 0 <= i < |s| :: r[i] == LowerChar(s[i])
  {
    seq(|s|, i requires 0 <= i < |s| => LowerChar(s[i]))
  }

  /** `eq_ignore_ascii_case` with a name that is written in lower case. */
  predicate IsName(s: string, name: string) {
    Lower(s) == name
  }

  // ---- Brackets ----

  function Bracketed(text: string): string {
    ['['] + text + [']']
  }

  function Unbracketed(host: string): string {
    if |host| >= 2 && host[0] == '[' && host[|host| - 1] == ']' then host[1..|host| - 1] else host
  }

  lemma UnbracketedOfBracketed(text: string)
    ensures Unbracketed(Bracketed(text)) == text
  {
  }

  // ---- Lines and words ----

  function StripCr(s: string): (r: string)
    ensures r <= s
  {
    if s != "" && s[|s| - 1] == '\r' then s[..|s| - 1] else s
  }

  /** `str::lines`: a line ends with "\n" or "\r\n"; the last one need not end. */
  function Lines(s: string): (lines: seq<string>)
    ensures forall line <- lines :: '\n' !in line
    decreases |s|
  {
    if s == "" then
      []
    else
      match IndexOf(s, "\n")
      case None =>
        assert forall i | 0 <= i < |s| :: s[i..i + 1] == [s[i]] && !At(s, "\n", i);
        [s]
      case Some(i) =>
        assert forall j | 0 <= j < i :: s[j..j + 1] == [s[j]] && !At(s, "\n", j);
        [StripCr(s[..i])] + Lines(s[i + 1..])
  }

  /** Lines put together again, each closed by "\r\n". */
  function Close(lines: seq<string>): string {
    if lines == [] then "" else lines[0] + "\r\n" + Close(lines[1..])
  }

  lemma {:induction false} CloseAppend(a: seq<string>, b: seq<string>)
    ensures Close(a + b) == Close(a) + Close(b)
  {
    if a == [] {
      assert a + b == b;
    } else {
      assert (a + b)[1..] == a[1..] + b;
      CloseAppend(a[1..], b);
    }
  }

  /** A line may end with a line feed alone. */
  lemma LinesConsLf(line: string, tail: string)
    requires '\n' !in line
    ensures Lines(line + ['\n'] + tail)
         == [if line != "" && line[|line| - 1] == '\r' then line[..|line| - 1] else line] + Lines(tail)
  {
    var s, i := line + ['\n'] + tail, |line|;
    assert s[i..i + 1] == "\n";
    forall j: nat | j < i ensures !At(s, "\n", j) {
      assert s[j..j + 1] == [s[j]];
      assert s[j] in line;
    }
    IndexOfIs(s, "\n", i);
    assert s[..i] == line && s[i + 1..] == tail;
  }

  lemma LinesCons(line: string, tail: string)
    requires '\n' !in line
    ensures Lines(line + "\r\n" + tail) == [line] + Lines(tail)
  {
    var s := line + "\r\n" + tail;
    var i := |line| + 1;
    assert s[i..i + 1] == "\n";
    forall j: nat | j < i ensures !At(s, "\n", j) {
      assert s[j..j + 1] == [s[j]];
      assert s[j] in line || s[j] == '\r';
    }
    IndexOfIs(s, "\n", i);
    assert s[..i] == line + "\r";
    assert s[i + 1..] == tail;
  }

  /** A header whose lines were closed one by one, and which then lost its last "\r\n", splits into
      those lines again. */
  lemma {:induction false} LinesOfClosed(lines: seq<string>, last: string)
    requires forall line <- lines :: '\n' !in line
    requires last != "" && '\n' !in last
    ensures Lines(Close(lines) + last) == lines + [last]
  {
    if lines == [] {
      assert Close(lines) + last == last;
      forall j: nat ensures !At(last, "\n", j) {
        assert j < |last| ==> last[j..j + 1] == [last[j]];
      }
    } else {
      var tail := Close(lines[1..]) + last;
      assert Close(lines) + last == lines[0] + "\r\n" + tail;
      LinesCons(lines[0], tail);
      LinesOfClosed(lines[1..], last);
    }
  }

  /** The first word of `s`, which does not start with whitespace, and what follows it. */
  function FirstWord(s: string): (split: (string, string))
    ensures s == split.0 + split.1 && NoWhitespace(split.0)
    ensures split.1 != "" ==> IsWhitespace(split.1[0])
    ensures s != "" && !IsWhitespace(s[0]) ==> split.0 != ""
  {
    if s == "" || IsWhitespace(s[0]) then
      ("", s)
    else
      var (word, rest) := FirstWord(s[1..]);
      ([s[0]] + word, rest)
  }

  /** `split_whitespace`. */
  function Words(s: string): (words: seq<string>)
    ensures forall w <- words :: w != "" && NoWhitespace(w)
    decreases |s|
  {
    var s' := SkipWhitespace(s);
    if s' == "" then
      []
    else
      var (word, rest) := FirstWord(s');
      [word] + Words(rest)
  }

  lemma {:induction false} FirstWordOf(word: string, rest: string)
    requires NoWhitespace(word) && (rest != "" ==> IsWhitespace(rest[0]))
    ensures FirstWord(word + rest) == (word, rest)
  {
    if word == "" {
      assert word + rest == rest;
    } else {
      assert word[0] in word;
      assert (word + rest)[1..] == word[1..] + rest;
      FirstWordOf(word[1..], rest);
      assert word == [word[0]] + word[1..];
    }
  }

  lemma OneWord(word: string)
    requires word != "" && NoWhitespace(word)
    ensures Words(word) == [word]
  {
    assert word[0] in word;
    assert word + "" == word;
    FirstWordOf(word, "");
  }

  lemma WordAndMore(word: string, c: char, rest: string)
    requires word != "" && NoWhitespace(word) && IsWhitespace(c)
    ensures Words(word + [c] + rest) == [word] + Words(rest)
  {
    assert word[0] in word;
    var s := word + [c] + rest;
    assert s == word + ([c] + rest);
    FirstWordOf(word, [c] + rest);
    assert ([c] + rest)[1..] == rest;
    assert SkipWhitespace([c] + rest) == SkipWhitespace(rest);
  }

  lemma TwoWords(a: string, b: string)
    requires a != "" && b != "" && NoWhitespace(a) && NoWhitespace(b)
    ensures Words(a + [' '] + b) == [a, b]
  {
    OneWord(b);
    WordAndMore(a, ' ', b);
  }

  lemma ThreeWords(a: string, b: string, c: string, s: string)
    requires a != "" && b != "" && c != "" && NoWhitespace(a) && NoWhitespace(b) && NoWhitespace(c)
    requires s == a + [' '] + b + [' '] + c
    ensures Words(s) == [a, b, c]
  {
    var rest := b + [' '] + c;
    TwoWords(b, c);
    WordAndMore(a, ' ', rest);
    Regrouped(a, b, c, s);
    assert [a] + [b, c] == [a, b, c];
  }

  lemma Regrouped(a: string, b: string, c: string, s: string)
    requires s == a + [' '] + b + [' '] + c
    ensures s == a + [' '] + (b + [' '] + c)
  {
  }

  // ---- Decimal numbers ----

  predicate IsDigit(c: char) {
    '0' <= c <= '9'
  }

  predicate AllDigits(s: string) {
    forall c <- s :: IsDigit(c)
  }

  function Decimal(n: nat): (s: string)
    ensures s != "" && AllDigits(s)
  {
    var digit := ('0' as int + n % 10) as char;
    if n < 10 then [digit] else Decimal(n / 10) + [digit]
  }

  lemma NoColonInDecimal(n: nat)
    ensures ':' !in Decimal(n)
  {
    assert AllDigits(Decimal(n));
  }

  /** Digit by digit. */
  lemma DecimalByDigit(n: nat)
    ensures n < 10 ==> Decimal(n) == ["0123456789"[n]]
    ensures n >= 10 ==> Decimal(n) == Decimal(n / 10) + ["0123456789"[n % 10]]
  {
  }

  function DigitsValue(s: string): nat
    requires AllDigits(s)
  {
    if s == "" then 0 else assert s[|s| - 1] in s; 10 * DigitsValue(s[..|s| - 1]) + (s[|s| - 1] as int - '0' as int)
  }

  lemma {:induction false} ValueOfDecimal(n: nat)
    ensures DigitsValue(Decimal(n)) == n
  {
    if n >= 10 {
      ValueOfDecimal(n / 10);
      assert Decimal(n)[..|Decimal(n)| - 1] == Decimal(n / 10);
    }
  }

  /** `str::parse::<u16>`: digits, perhaps after a '+'. */
  function ParseU16(s: string): (value: Option<nat>)
    ensures value.Some? ==> value.value < 0x1_0000 && s != "" && forall c <- s :: IsDigit(c) || c == '+'
  {
    var digits := if s != "" && s[0] == '+' then s[1..] else s;
    if digits == "" || !AllDigits(digits) || DigitsValue(digits) > 0xFFFF then
      None
    else
      assert forall c <- s :: c in digits || c == '+';
      Some(DigitsValue(digits))
  }

  /** A plus sign is allowed, and what does not fit is refused. */
  lemma OtherPorts(n: nat)
    ensures n < 65536 ==> ParseU16(['+'] + Decimal(n)) == Some(n)
    ensures n >= 65536 ==> ParseU16(Decimal(n)) == None
  {
    ValueOfDecimal(n);
    assert IsDigit(Decimal(n)[0]);
    assert (['+'] + Decimal(n))[1..] == Decimal(n);
  }

  lemma ParseOfDecimal(n: nat)
    requires n < 0x1_0000
    ensures ParseU16(Decimal(n)) == Some(n)
  {
    ValueOfDecimal(n);
    assert IsDigit(Decimal(n)[0]);
  }
}
