/**
 * The base 64 encoding of section 4 of RFC 4648 (standard alphabet, `=` padding), as
 * Python's `base64.b64encode` produces it, with a decoder that inverts it.
 */
module Base64 {
  import opened Wrappers
  import opened Bytes

  type sextet = x: int | 0 <= x < 64

  /** The alphabet of Table 1 of RFC 4648: `A`-`Z`, `a`-`z`, `0`-`9`, `+`, `/`. */
  function SextetChar(x: sextet): char {
    if x < 26 then ('A' as int + x) as char
    else if x < 52 then ('a' as int + (x - 26)) as char
    else if x < 62 then ('0' as int + (x - 52)) as char
    else if x == 62 then '+'
    else '/'
  }

  predicate IsAlphabet(c: char) {
    ('A' <= c <= 'Z') || ('a' <= c <= 'z') || ('0' <= c <= '9') || c == '+' || c == '/'
  }

  function CharSextet(c: char): (x: sextet)
    requires IsAlphabet(c)
    ensures SextetChar(x) == c
  {
    if 'A' <= c <= 'Z' then c as int - 'A' as int
    else if 'a' <= c <= 'z' then c as int - 'a' as int + 26
    else if '0' <= c <= '9' then c as int - '0' as int + 52
    else if c == '+' then 62
    else 63
  }

  lemma SextetCharInverse(x: sextet)
    ensures IsAlphabet(SextetChar(x)) && CharSextet(SextetChar(x)) == x
  {
  }

  /** Three bytes, 24 bits, written as four characters of six bits each. */
  function EncodeTriple(b0: byte, b1: byte, b2: byte): string {
    [SextetChar(b0 / 4), SextetChar((b0 % 4) * 16 + b1 / 16),
     SextetChar((b1 % 16) * 4 + b2 / 64), SextetChar(b2 % 64)]
  }

  /**
   * The encoding of `b`: whole groups of three bytes first, then a final group of one
   * or two bytes padded with `=` to four characters.
   */
  function Encode(b: seq<byte>): (s: string)
    ensures |b| > 0 ==> |s| > 0
  {
    if |b| == 0 then []
    else if |b| == 1 then [SextetChar(b[0] / 4), SextetChar((b[0] % 4) * 16), '=', '=']
    else if |b| == 2 then
      [SextetChar(b[0] / 4), SextetChar((b[0] % 4) * 16 + b[1] / 16), SextetChar((b[1] % 16) * 4), '=']
    else EncodeTriple(b[0], b[1], b[2]) + Encode(b[3..])
  }

  /**
   * The bytes that `s` encodes, or `None` when `s` is not a padded encoding: its length
   * must be a multiple of four, padding may appear only in the last group, and every other
   * character must belong to the alphabet. Bits below the last whole byte are ignored.
   */
  function Decode(s: string): (r: Option<seq<byte>>)
    ensures r.Some? ==> |s| % 4 == 0
  {
    if |s| == 0 then Some([])
    else if |s| < 4 || !IsAlphabet(s[0]) || !IsAlphabet(s[1]) then None
    else
      var c0, c1 := CharSextet(s[0]), CharSextet(s[1]);
      if |s| == 4 && s[2] == '=' && s[3] == '=' then
        Some([c0 * 4 + c1 / 16])
      else if !IsAlphabet(s[2]) then None
      else
        var c2 := CharSextet(s[2]);
        if |s| == 4 && s[3] == '=' then
          Some([c0 * 4 + c1 / 16, (c1 % 16) * 16 + c2 / 4])
        else if !IsAlphabet(s[3]) then None
        else
          var c3 := CharSextet(s[3]);
          match Decode(s[4..])
          case None => None
          case Some(rest) => Some(DecodeQuad(c0, c1, c2, c3) + rest)
  }

  /** Four sextets, 24 bits, read back as three bytes. */
  function DecodeQuad(c0: sextet, c1: sextet, c2: sextet, c3: sextet): seq<byte> {
    [c0 * 4 + c1 / 16, (c1 % 16) * 16 + c2 / 4, (c2 % 4) * 64 + c3]
  }

  /** The bit arithmetic of one full group: the four sextets give back the three bytes. */
  lemma TripleBits(b0: byte, b1: byte, b2: byte)
    ensures DecodeQuad(b0 / 4, (b0 % 4) * 16 + b1 / 16, (b1 % 16) * 4 + b2 / 64, b2 % 64) == [b0, b1, b2]
  {
    assert (b0 / 4) * 4 + ((b0 % 4) * 16 + b1 / 16) / 16 == b0;
    assert (((b0 % 4) * 16 + b1 / 16) % 16) * 16 + ((b1 % 16) * 4 + b2 / 64) / 4 == b1;
    assert (((b1 % 16) * 4 + b2 / 64) % 4) * 64 + b2 % 64 == b2;
  }

  /** A full group in front of any decodable text decodes to its three bytes in front. */
  lemma DecodeTriplePrefix(b0: byte, b1: byte, b2: byte, t: string, r: seq<byte>)
    requires Decode(t) == Some(r)
    ensures Decode(EncodeTriple(b0, b1, b2) + t) == Some([b0, b1, b2] + r)
  {
    var s := EncodeTriple(b0, b1, b2) + t;
    var c0, c1, c2, c3 := b0 / 4, (b0 % 4) * 16 + b1 / 16, (b1 % 16) * 4 + b2 / 64, b2 % 64;
    SextetCharInverse(c0);
    SextetCharInverse(c1);
    SextetCharInverse(c2);
    SextetCharInverse(c3);
    assert s[4..] == t;
    assert s[2] != '=' && s[3] != '=';
    assert Decode(s) == Some(DecodeQuad(CharSextet(s[0]), CharSextet(s[1]), CharSextet(s[2]), CharSextet(s[3])) + r);
    TripleBits(b0, b1, b2);
  }

  lemma EncodeGroup(b: seq<byte>)
    requires |b| >= 3
    ensures Encode(b) == EncodeTriple(b[0], b[1], b[2]) + Encode(b[3..])
  {
  }

  lemma DecodeEncodeGroup(b: seq<byte>)
    requires |b| >= 3 && Decode(Encode(b[3..])) == Some(b[3..])
    ensures Decode(Encode(b)) == Some(b)
  {
    FirstGroup(b);
    EncodeGroup(b);
    DecodeTriplePrefix(b[0], b[1], b[2], Encode(b[3..]), b[3..]);
  }

  lemma FirstGroup(b: seq<byte>)
    requires |b| >= 3
    ensures b == [b[0], b[1], b[2]] + b[3..]
  {
  }

  /** Decoding undoes encoding, for every byte sequence. */
  lemma {:induction false} DecodeEncode(b: seq<byte>)
    ensures Decode(Encode(b)) == Some(b)
  {
    if |b| == 1 {
      DecodeEncodeOne(b[0]);
      assert b == [b[0]];
    } else if |b| == 2 {
      DecodeEncodeTwo(b[0], b[1]);
      assert b == [b[0], b[1]];
    } else if |b| >= 3 {
      DecodeEncode(b[3..]);
      DecodeEncodeGroup(b);
    }
  }

  /** A final group of one byte, padded with `==`. */
  lemma DecodeEncodeOne(b0: byte)
    ensures Decode(Encode([b0])) == Some([b0])
  {
    var c0, c1 := b0 / 4, (b0 % 4) * 16;
    SextetCharInverse(c0);
    SextetCharInverse(c1);
    var s := Encode([b0]);
    assert s == [SextetChar(c0), SextetChar(c1), '=', '='];
    assert c0 * 4 + c1 / 16 == b0;
    assert Decode(s) == Some([CharSextet(s[0]) * 4 + CharSextet(s[1]) / 16]);
  }

  /** A final group of two bytes, padded with `=`. */
  lemma DecodeEncodeTwo(b0: byte, b1: byte)
    ensures Decode(Encode([b0, b1])) == Some([b0, b1])
  {
    SextetCharInverse(b0 / 4);
    SextetCharInverse((b0 % 4) * 16 + b1 / 16);
    SextetCharInverse((b1 % 16) * 4);
    TripleBits(b0, b1, 0);
  }

  /** Four characters for every started group of three bytes. */
  lemma {:induction false} EncodeLength(b: seq<byte>)
    ensures |Encode(b)| == 4 * ((|b| + 2) / 3)
  {
    if |b| >= 3 {
      EncodeLength(b[3..]);
      assert (|b| + 2) / 3 == (|b[3..]| + 2) / 3 + 1;
    }
  }

  /** Every group of three zero bytes encodes as `AAAA`. */
  lemma {:induction false} EncodeZeroTriples(k: nat)
    ensures Encode(Zeros(3 * k)) == seq(4 * k, _ => 'A')
  {
    if k > 0 {
      assert Zeros(3 * k)[3..] == Zeros(3 * (k - 1));
      EncodeZeroTriples(k - 1);
      assert seq(4 * k, _ => 'A') == "AAAA" + seq(4 * (k - 1), _ => 'A');
    }
  }
}
