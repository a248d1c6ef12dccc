/** Failure-carrying wrappers used where the source returns `nil`, `None` or an `error`. */
module Wrappers {

  datatype Option<+T> = None | Some(value: T) {
    /** The value, or `default` when there is none (Python's `dict.get(key, default)`). */
    function GetOr(default: T): T {
      if Some? then value else default
    }
  }

  /** `Err` carries the error text the source builds; `Ok` the value. */
  datatype Result<+T> = Ok(value: T) | Err(message: string)
}

/** Raw octets, as Go's `[]byte` and Python's `bytearray` hold them. */
module Bytes {

  type byte = b: int | 0 <= b < 256

  /** A buffer of `n` zero bytes (Python's `bytearray(n)`). */
  function Zeros(n: nat): (r: seq<byte>)
    ensures |r| == n
    ensures forall i :: 0 <= i < n ==> r[i] == 0
  {
    seq(n, _ => 0)
  }
}

/** The string helpers of Go's `strings` package and Python's `str` that the core relies on. */
module Text {

  /**
   * Go's `unicode.IsSpace` over ASCII: space, tab, line feed, vertical tab, form feed and
   * carriage return. Go also accepts U+0085, U+00A0 and the Unicode spaces; those are not
   * part of this model.
   */
  predicate IsSpace(c: char) {
    c == ' ' || c == '\t' || c == '\n' || c == '\r' || c as int == 11 || c as int == 12
  }

  predicate AllSpace(s: string) {
    forall i :: 0 <= i < |s| ==> IsSpace(s[i])
  }

  /** Number of white-space characters at the front of `s`. */
  function LeadingSpace(s: string): (k: nat)
    ensures k <= |s|
    ensures forall i :: 0 <= i < k ==> IsSpace(s[i])
    ensures k < |s| ==> !IsSpace(s[k])
  {
    if s == [] || !IsSpace(s[0]) then 0 else 1 + LeadingSpace(s[1..])
  }

  /** Number of white-space characters at the back of `s`. */
  function TrailingSpace(s: string): (k: nat)
    ensures k <= |s|
    ensures forall i :: |s| - k <= i < |s| ==> IsSpace(s[i])
    ensures k < |s| ==> !IsSpace(s[|s| - 1 - k])
  {
    if s == [] || !IsSpace(s[|s| - 1]) then 0 else 1 + TrailingSpace(s[..|s| - 1])
  }

  /**
   * Go's `strings.TrimSpace`: `s` without its leading and
   * trailing white space. The result is the stretch of `s` between them, it is empty
   * exactly when `s` is all white space, and otherwise it starts and ends with a
   * non-space character.
   */
  function TrimSpace(s: string): (r: string)
    ensures |r| <= |s|
    ensures r == [] <==> AllSpace(s)
    ensures r != [] ==> !IsSpace(r[0]) && !IsSpace(r[|r| - 1])
    ensures LeadingSpace(s) + |r| <= |s| && r == s[LeadingSpace(s)..LeadingSpace(s) + |r|]
    ensures forall i :: 0 <= i < |s| && !(LeadingSpace(s) <= i < LeadingSpace(s) + |r|) ==> IsSpace(s[i])
  {
    var t := s[LeadingSpace(s)..];
    var r := t[..|t| - TrailingSpace(t)];
    TrimmedIsStretch(s, t, r);
    TrimmedLeavesSpace(s, t, r);
    r
  }

  lemma TrimmedIsStretch(s: string, t: string, r: string)
    requires t == s[LeadingSpace(s)..] && r == t[..|t| - TrailingSpace(t)]
    ensures r == s[LeadingSpace(s)..LeadingSpace(s) + |r|]
    ensures r == [] <==> AllSpace(s)
  {
    if !AllSpace(s) {
      var j :| 0 <= j < |s| && !IsSpace(s[j]);
      assert LeadingSpace(s) <= j;
      assert t[0] == s[LeadingSpace(s)];
      assert !IsSpace(r[0]);
    }
  }

  lemma TrimmedLeavesSpace(s: string, t: string, r: string)
    requires t == s[LeadingSpace(s)..] && r == t[..|t| - TrailingSpace(t)]
    ensures forall i :: 0 <= i < |s| && !(LeadingSpace(s) <= i < LeadingSpace(s) + |r|) ==> IsSpace(s[i])
  {
    var k := LeadingSpace(s);
    forall i | k + |r| <= i < |s|
      ensures IsSpace(s[i])
    {
      assert s[i] == t[i - k];
    }
  }

  lemma {:induction false} TrimSpaceIdempotent(s: string)
    ensures TrimSpace(TrimSpace(s)) == TrimSpace(s)
  {
    var r := TrimSpace(s);
    if r != [] {
      assert LeadingSpace(r) == 0;
      assert TrailingSpace(r) == 0;
    }
  }

  /**
   * Python's `str.isspace` over ASCII: Go's six white-space characters and also the four
   * separators U+001C to U+001F, which Python counts as white space by their bidirectional
   * class. Python also accepts U+0085, U+00A0 and the Unicode spaces; those are not part of
   * this model.
   */
  predicate IsPySpace(c: char) {
    IsSpace(c) || 0x1C <= c as int <= 0x1F
  }

  predicate AllPySpace(s: string) {
    forall i :: 0 <= i < |s| ==> IsPySpace(s[i])
  }

  /** Number of Python white-space characters at the front of `s`. */
  function PyLeadingSpace(s: string): (k: nat)
    ensures k <= |s|
    ensures forall i :: 0 <= i < k ==> IsPySpace(s[i])
    ensures k < |s| ==> !IsPySpace(s[k])
  {
    if s == [] || !IsPySpace(s[0]) then 0 else 1 + PyLeadingSpace(s[1..])
  }

  /** Number of Python white-space characters at the back of `s`. */
  function PyTrailingSpace(s: string): (k: nat)
    ensures k <= |s|
    ensures forall i :: |s| - k <= i < |s| ==> IsPySpace(s[i])
    ensures k < |s| ==> !IsPySpace(s[|s| - 1 - k])
  {
    if s == [] || !IsPySpace(s[|s| - 1]) then 0 else 1 + PyTrailingSpace(s[..|s| - 1])
  }

  /**
   * Python's `str.strip()` with no argument: `s` without its leading and trailing Python
   * white space. As with `TrimSpace`, the result is the stretch of `s` between them, empty
   * exactly when `s` is all white space, and otherwise bounded by non-space characters.
   */
  function Strip(s: string): (r: string)
    ensures |r| <= |s|
    ensures r == [] <==> AllPySpace(s)
    ensures r != [] ==> !IsPySpace(r[0]) && !IsPySpace(r[|r| - 1])
    ensures PyLeadingSpace(s) + |r| <= |s| && r == s[PyLeadingSpace(s)..PyLeadingSpace(s) + |r|]
    ensures forall i :: 0 <= i < |s| && !(PyLeadingSpace(s) <= i < PyLeadingSpace(s) + |r|) ==> IsPySpace(s[i])
  {
    var t := s[PyLeadingSpace(s)..];
    var r := t[..|t| - PyTrailingSpace(t)];
    StrippedIsStretch(s, t, r);
    StrippedLeavesSpace(s, t, r);
    r
  }

  lemma StrippedIsStretch(s: string, t: string, r: string)
    requires t == s[PyLeadingSpace(s)..] && r == t[..|t| - PyTrailingSpace(t)]
    ensures r == s[PyLeadingSpace(s)..PyLeadingSpace(s) + |r|]
    ensures r == [] <==> AllPySpace(s)
  {
    if !AllPySpace(s) {
      var j :| 0 <= j < |s| && !IsPySpace(s[j]);
      assert PyLeadingSpace(s) <= j;
      assert t[0] == s[PyLeadingSpace(s)];
      assert !IsPySpace(r[0]);
    }
  }

  lemma StrippedLeavesSpace(s: string, t: string, r: string)
    requires t == s[PyLeadingSpace(s)..] && r == t[..|t| - PyTrailingSpace(t)]
    ensures forall i :: 0 <= i < |s| && !(PyLeadingSpace(s) <= i < PyLeadingSpace(s) + |r|) ==> IsPySpace(s[i])
  {
    var k := PyLeadingSpace(s);
    forall i | k + |r| <= i < |s|
      ensures IsPySpace(s[i])
    {
      assert s[i] == t[i - k];
    }
  }

  /** Without the four separators U+001C to U+001F, Python's `strip` and Go's `TrimSpace` agree. */
  lemma {:induction false} StripWithoutSeparators(s: string)
    requires forall i :: 0 <= i < |s| ==> !(0x1C <= s[i] as int <= 0x1F)
    ensures Strip(s) == TrimSpace(s)
  {
    LeadingAgrees(s);
    var t := s[LeadingSpace(s)..];
    TrailingAgrees(t);
  }

  lemma {:induction false} LeadingAgrees(s: string)
    requires forall i :: 0 <= i < |s| ==> !(0x1C <= s[i] as int <= 0x1F)
    ensures PyLeadingSpace(s) == LeadingSpace(s)
  {
    if s != [] && IsSpace(s[0]) {
      LeadingAgrees(s[1..]);
    }
  }

  lemma {:induction false} TrailingAgrees(s: string)
    requires forall i :: 0 <= i < |s| ==> !(0x1C <= s[i] as int <= 0x1F)
    ensures PyTrailingSpace(s) == TrailingSpace(s)
  {
    if s != [] && IsSpace(s[|s| - 1]) {
      TrailingAgrees(s[..|s| - 1]);
    }
  }

  /** The concatenation of `parts`, in order, with no separator (Python's `"".join`). */
  function Concat(parts: seq<string>): (r: string)
    ensures |parts| == 0 ==> r == []
  {
    if parts == [] then [] else Concat(parts[..|parts| - 1]) + parts[|parts| - 1]
  }

  lemma {:induction false} ConcatAppend(a: seq<string>, b: seq<string>)
    ensures Concat(a + b) == Concat(a) + Concat(b)
  {
    if b != [] {
      assert (a + b)[..|a + b| - 1] == a + b[..|b| - 1];
      ConcatAppend(a, b[..|b| - 1]);
    } else {
      assert a + b == a;
    }
  }

  /** The parts of `s` between occurrences of `sep` (Go's `strings.Split` with a one-character separator). */
  function Split(s: string, sep: char): (parts: seq<string>)
    ensures |parts| >= 1
    ensures forall i, j :: 0 <= i < |parts| && 0 <= j < |parts[i]| ==> parts[i][j] != sep
  {
    if s == [] then [[]]
    else
      var rest := Split(s[1..], sep);
      if s[0] == sep then [[]] + rest else [[s[0]] + rest[0]] + rest[1..]
  }

  /** `parts` glued back together with `sep` between neighbours (Go's `strings.Join`). */
  function Join(parts: seq<string>, sep: char): string
    requires |parts| >= 1
  {
    if |parts| == 1 then parts[0] else parts[0] + [sep] + Join(parts[1..], sep)
  }

  /** Splitting loses nothing: joining the parts with the separator gives back the input. */
  lemma {:induction false} JoinSplit(s: string, sep: char)
    ensures Join(Split(s, sep), sep) == s
  {
    if s != [] {
      var rest := Split(s[1..], sep);
      JoinSplit(s[1..], sep);
      if s[0] != sep {
        var parts := Split(s, sep);
        if |rest| == 1 {
          assert parts == [[s[0]] + rest[0]];
        } else {
          assert parts[1..] == rest[1..];
          assert Join(rest, sep) == rest[0] + [sep] + Join(rest[1..], sep);
        }
      }
    }
  }

  function ToLowerAscii(c: char): char {
    if 'A' <= c <= 'Z' then (c as int + 32) as char else c
  }

  /** Case-insensitive equality over ASCII letters (Go's `strings.EqualFold` restricted to ASCII). */
  predicate EqualFold(a: string, b: string) {
    |a| == |b| && forall i :: 0 <= i < |a| ==> ToLowerAscii(a[i]) == ToLowerAscii(b[i])
  }
}

/**
 * Go's `%q` verb on a string (`strconv.Quote`): the string between double quotes, with
 * `"` and `\` escaped by a backslash, the ASCII control characters that have a short
 * escape written as `\a \b \f \n \r \t \v`, the other ASCII control characters and DEL
 * written as `\x` and two lower-case hex digits, and every other character kept.
 */
module Quoting {
  import opened Wrappers

  /** The short escape letter of a control character, if it has one. */
  function ShortEscape(c: char): Option<char> {
    if c as int == 7 then Some('a')
    else if c as int == 8 then Some('b')
    else if c as int == 12 then Some('f')
    else if c as int == 10 then Some('n')
    else if c as int == 13 then Some('r')
    else if c as int == 9 then Some('t')
    else if c as int == 11 then Some('v')
    else None
  }

  /** The character a short escape letter stands for. */
  function ShortEscaped(e: char): Option<char> {
    if e == 'a' then Some(7 as char)
    else if e == 'b' then Some(8 as char)
    else if e == 'f' then Some(12 as char)
    else if e == 'n' then Some(10 as char)
    else if e == 'r' then Some(13 as char)
    else if e == 't' then Some(9 as char)
    else if e == 'v' then Some(11 as char)
    else None
  }

  /** A character that `%q` writes as a `\x` escape: a control character without a short escape, or DEL. */
  predicate NeedsHexEscape(c: char) {
    ((c as int) < 0x20 || c as int == 0x7f) && ShortEscape(c).None?
  }

  function HexDigit(n: nat): (c: char)
    requires n < 16
    ensures '0' <= c <= '9' || 'a' <= c <= 'f'
  {
    if n < 10 then ('0' as int + n) as char else ('a' as int + n - 10) as char
  }

  predicate IsLowerHex(c: char) {
    '0' <= c <= '9' || 'a' <= c <= 'f'
  }

  function HexValue(c: char): (n: nat)
    requires IsLowerHex(c)
    ensures n < 16
  {
    if c <= '9' then c as int - '0' as int else c as int - 'a' as int + 10
  }

  /** A hex digit reads back as its value. */
  lemma HexDigitValue(n: nat)
    requires n < 16
    ensures IsLowerHex(HexDigit(n)) && HexValue(HexDigit(n)) == n
  {
  }

  /** How `%q` writes one character. */
  function QuoteChar(c: char): (r: string)
    ensures 1 <= |r| <= 4
    ensures |r| == 1 <==> c != '"' && c != '\\' && !((c as int) < 0x20 || c as int == 0x7f)
  {
    if c == '"' || c == '\\' then ['\\', c]
    else if ShortEscape(c).Some? then ['\\', ShortEscape(c).value]
    else if NeedsHexEscape(c) then ['\\', 'x', HexDigit(c as int / 16), HexDigit(c as int % 16)]
    else [c]
  }

  /** The characters of `s` as `%q` writes them, without the surrounding quotes. */
  function QuoteBody(s: string): (r: string)
    ensures |r| >= |s|
  {
    if s == [] then [] else QuoteChar(s[0]) + QuoteBody(s[1..])
  }

  /** `%q` of `s`. */
  function Quote(s: string): (r: string)
    ensures |r| >= |s| + 2 && r[0] == '"' && r[|r| - 1] == '"'
  {
    "\"" + QuoteBody(s) + "\""
  }

  /** A character that `%q` keeps as it is. */
  predicate Plain(c: char) {
    c != '"' && c != '\\' && 0x20 <= c as int && c as int != 0x7f
  }

  /** A string of plain characters is quoted by adding the quotes alone. */
  lemma {:induction false} QuotePlain(s: string)
    requires forall i :: 0 <= i < |s| ==> Plain(s[i])
    ensures Quote(s) == "\"" + s + "\""
  {
    QuoteBodyPlain(s);
  }

  lemma {:induction false} QuoteBodyPlain(s: string)
    requires forall i :: 0 <= i < |s| ==> Plain(s[i])
    ensures QuoteBody(s) == s
  {
    if s != [] {
      QuoteBodyPlain(s[1..]);
    }
  }

  function Prepend(c: char, rest: Option<string>): Option<string> {
    if rest.None? then None else Some([c] + rest.value)
  }

  /** Reading back a quoted body: the escapes `%q` writes are undone; a bare `"` or an unknown escape fails. */
  function Unescape(t: string): Option<string>
    decreases |t|
  {
    if t == [] then Some([])
    else if t[0] == '"' then None
    else if t[0] != '\\' then Prepend(t[0], Unescape(t[1..]))
    else if |t| < 2 then None
    else if t[1] == '"' || t[1] == '\\' then Prepend(t[1], Unescape(t[2..]))
    else if t[1] == 'x' then
      if |t| < 4 || !IsLowerHex(t[2]) || !IsLowerHex(t[3]) then None
      else Prepend((HexValue(t[2]) * 16 + HexValue(t[3])) as char, Unescape(t[4..]))
    else if ShortEscaped(t[1]).Some? then Prepend(ShortEscaped(t[1]).value, Unescape(t[2..]))
    else None
  }

  /** Reading back a `%q` string: the quotes, then an escaped body. */
  function Unquote(q: string): Option<string> {
    if |q| >= 2 && q[0] == '"' && q[|q| - 1] == '"' then Unescape(q[1..|q| - 1]) else None
  }

  lemma UnescapeQuoteChar(c: char, rest: string)
    ensures Unescape(QuoteChar(c) + rest) == Prepend(c, Unescape(rest))
  {
    var t := QuoteChar(c) + rest;
    if c == '"' || c == '\\' {
      assert t[2..] == rest;
    } else if ShortEscape(c).Some? {
      assert t[2..] == rest;
    } else if NeedsHexEscape(c) {
      HexDigitValue(c as int / 16);
      HexDigitValue(c as int % 16);
      assert t[4..] == rest;
    } else {
      assert t[1..] == rest;
    }
  }

  lemma {:induction false} UnescapeQuoteBody(s: string)
    ensures Unescape(QuoteBody(s)) == Some(s)
  {
    if s != [] {
      UnescapeQuoteChar(s[0], QuoteBody(s[1..]));
      UnescapeQuoteBody(s[1..]);
      assert s == [s[0]] + s[1..];
    }
  }

  /** Quoting loses nothing: every string reads back from its `%q` form, so distinct strings quote differently. */
  lemma UnquoteQuote(s: string)
    ensures Unquote(Quote(s)) == Some(s)
  {
    var q := Quote(s);
    assert q[1..|q| - 1] == QuoteBody(s);
    UnescapeQuoteBody(s);
  }

  /** A quote inside the string is escaped: `a"b` is written `"a\"b"`. */
  lemma QuoteEscapesQuote()
    ensures Quote("a\"b") == "\"a\\\"b\""
  {
    assert QuoteBody("b") == "b";
    assert QuoteBody("\"b") == "\\\"b";
  }
}
