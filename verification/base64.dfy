/** Base64 with the standard alphabet and '=' padding (section 4 of RFC 4648),
    as produced by .NET's `Convert.ToBase64String`. The decoder is the
    encoder's partner: it inverts it. */
module Base64 {
  import opened Wrappers
  import opened Bytes

  type Index = i: int | 0 <= i < 64

  /** The character that encodes the 6-bit value `i`:
      A-Z, a-z, 0-9, '+', '/'. */
  function CharOf(i: Index): (c: char)
    ensures IsBase64Char(c)
  {
    if i < 26 then ('A' as int + i) as char
    else if i < 52 then ('a' as int + (i - 26)) as char
    else if i < 62 then ('0' as int + (i - 52)) as char
    else if i == 62 then '+'
    else '/'
  }

  /** `c` belongs to the 64-character alphabet (so it is not padding). */
  predicate IsBase64Char(c: char) {
    'A' <= c <= 'Z' || 'a' <= c <= 'z' || '0' <= c <= '9' || c == '+' || c == '/'
  }

  /** The 6-bit value a character of the alphabet encodes. */
  function IndexOf(c: char): (i: Index)
    requires IsBase64Char(c)
    ensures CharOf(i) == c
  {
    if 'A' <= c <= 'Z' then c as int - 'A' as int
    else if 'a' <= c <= 'z' then c as int - 'a' as int + 26
    else if '0' <= c <= '9' then c as int - '0' as int + 52
    else if c == '+' then 62
    else 63
  }

  lemma IndexOfCharOf(i: Index)
    ensures IndexOf(CharOf(i)) == i
  {
  }

  /** Three bytes become four characters, six bits each. */
  function EncodeGroup(b0: Byte, b1: Byte, b2: Byte): (s: string)
  {
    [CharOf(b0 / 4), CharOf((b0 % 4) * 16 + b1 / 16), CharOf((b1 % 16) * 4 + b2 / 64), CharOf(b2 % 64)]
  }

  /** `Convert.ToBase64String(d)`: full groups of three bytes, then a final
      group of one or two bytes padded with '=' to four characters. */
  function Encode(d: seq<Byte>): (s: string)
    decreases |d|
    ensures forall i :: 0 <= i < |s| ==> IsBase64Char(s[i]) || s[i] == '='
  {
    if |d| == 0 then []
    else if |d| == 1 then [CharOf(d[0] / 4), CharOf((d[0] % 4) * 16), '=', '=']
    else if |d| == 2 then [CharOf(d[0] / 4), CharOf((d[0] % 4) * 16 + d[1] / 16), CharOf((d[1] % 16) * 4), '=']
    else EncodeGroup(d[0], d[1], d[2]) + Encode(d[3..])
  }

  /** The bytes four characters stand for; `last` says whether they are the
      final group of the text, the only one that may carry padding. */
  function DecodeQuad(c0: char, c1: char, c2: char, c3: char, last: bool): (r: Option<seq<Byte>>)
    ensures r.Some? ==> 1 <= |r.value| <= 3
  {
    if !IsBase64Char(c0) || !IsBase64Char(c1) then None
    else
      var i0, i1 := IndexOf(c0), IndexOf(c1);
      var b0 := i0 * 4 + i1 / 16;
      if last && c2 == '=' && c3 == '=' then Some([b0])
      else if !IsBase64Char(c2) then None
      else
        var i2 := IndexOf(c2);
        var b1 := (i1 % 16) * 16 + i2 / 4;
        if last && c3 == '=' then Some([b0, b1])
        else if !IsBase64Char(c3) then None
        else Some([b0, b1, (i2 % 4) * 64 + IndexOf(c3)])
  }

  /** Inverse of `Encode`: four characters at a time, the last group possibly
      padded; None on a character outside the alphabet or a wrong length. */
  function Decode(s: string): (r: Option<seq<Byte>>)
    decreases |s|
  {
    if |s| == 0 then Some([])
    else if |s| < 4 then None
    else
      match DecodeQuad(s[0], s[1], s[2], s[3], |s| == 4)
      case None => None
      case Some(group) =>
        match Decode(s[4..])
        case None => None
        case Some(rest) => Some(group + rest)
  }

  /** Length of the encoding: four characters for every started group of
      three bytes, i.e. 4 * ceil(n / 3). */
  lemma {:induction false} EncodeLength(d: seq<Byte>)
    ensures |Encode(d)| == 4 * ((|d| + 2) / 3)
  {
    if |d| >= 3 {
      EncodeLength(d[3..]);
      assert (|d[3..]| + 2) / 3 + 1 == (|d| + 2) / 3;
    }
  }

  /** Every character of the encoding before the padding is in the
      alphabet: of a one-byte final group the first two characters are, of
      a two-byte final group the first three. */
  lemma {:induction false} EncodeAlphabet(d: seq<Byte>, k: nat)
    requires k < |Encode(d)|
    requires k < 4 * (|d| / 3) + (if |d| % 3 == 0 then 0 else |d| % 3 + 1)
    ensures IsBase64Char(Encode(d)[k])
  {
    if |d| >= 3 {
      if k >= 4 {
        EncodeLength(d[3..]);
        assert Encode(d)[k] == Encode(d[3..])[k - 4];
        EncodeAlphabet(d[3..], k - 4);
      }
    }
  }

  lemma GroupArithmetic(b0: Byte, b1: Byte, b2: Byte)
    ensures var i0, i1, i2, i3 := b0 / 4, (b0 % 4) * 16 + b1 / 16, (b1 % 16) * 4 + b2 / 64, b2 % 64;
      && i0 * 4 + i1 / 16 == b0
      && (i1 % 16) * 16 + i2 / 4 == b1
      && (i2 % 4) * 64 + i3 == b2
  {
  }

  /** Decoding a padded final group of one byte. */
  lemma DecodeFinalOne(b0: Byte)
    ensures Decode(Encode([b0])) == Some([b0])
  {
    IndexOfCharOf(b0 / 4);
    IndexOfCharOf((b0 % 4) * 16);
    GroupArithmetic(b0, 0, 0);
    var e := Encode([b0]);
    assert Decode(e[4..]) == Some([]);
    assert DecodeQuad(e[0], e[1], e[2], e[3], true) == Some([b0]);
    assert [b0] + [] == [b0];
  }

  /** Decoding a padded final group of two bytes. */
  lemma DecodeFinalTwo(b0: Byte, b1: Byte)
    ensures Decode(Encode([b0, b1])) == Some([b0, b1])
  {
    IndexOfCharOf(b0 / 4);
    IndexOfCharOf((b0 % 4) * 16 + b1 / 16);
    IndexOfCharOf((b1 % 16) * 4);
    GroupArithmetic(b0, b1, 0);
    var e := Encode([b0, b1]);
    assert Decode(e[4..]) == Some([]);
    assert DecodeQuad(e[0], e[1], e[2], e[3], true) == Some([b0, b1]);
    assert [b0, b1] + [] == [b0, b1];
  }

  /** The four characters of a full group decode to its three bytes. */
  lemma DecodeQuadGroup(b0: Byte, b1: Byte, b2: Byte, last: bool)
    ensures var g := EncodeGroup(b0, b1, b2);
      DecodeQuad(g[0], g[1], g[2], g[3], last) == Some([b0, b1, b2])
  {
    IndexOfCharOf(b0 / 4);
    IndexOfCharOf((b0 % 4) * 16 + b1 / 16);
    IndexOfCharOf((b1 % 16) * 4 + b2 / 64);
    IndexOfCharOf(b2 % 64);
    GroupArithmetic(b0, b1, b2);
  }

  /** Decoding a full group in front of the rest of an encoding. */
  lemma DecodeFullGroup(b0: Byte, b1: Byte, b2: Byte, rest: string)
    requires Decode(rest).Some?
    ensures Decode(EncodeGroup(b0, b1, b2) + rest) == Some([b0, b1, b2] + Decode(rest).value)
  {
    var g := EncodeGroup(b0, b1, b2);
    var s := g + rest;
    DecodeQuadGroup(b0, b1, b2, |s| == 4);
    assert s[0] == g[0] && s[1] == g[1] && s[2] == g[2] && s[3] == g[3];
    assert s[4..] == rest;
  }

  /** Round trip: decoding the encoding of a byte sequence gives it back. */
  lemma {:induction false} DecodeEncode(d: seq<Byte>)
    ensures Decode(Encode(d)) == Some(d)
  {
    if |d| == 1 {
      assert d == [d[0]];
      DecodeFinalOne(d[0]);
    } else if |d| == 2 {
      assert d == [d[0], d[1]];
      DecodeFinalTwo(d[0], d[1]);
    } else if |d| >= 3 {
      DecodeEncode(d[3..]);
      DecodeFullGroup(d[0], d[1], d[2], Encode(d[3..]));
      assert [d[0], d[1], d[2]] + d[3..] == d;
    }
  }

  /** Different byte sequences have different encodings. */
  lemma EncodeInjective(d: seq<Byte>, e: seq<Byte>)
    requires Encode(d) == Encode(e)
    ensures d == e
  {
    DecodeEncode(d);
    DecodeEncode(e);
  }
}
