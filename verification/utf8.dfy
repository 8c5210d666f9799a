/** UTF-8, as produced by .NET's `Encoding.UTF8.GetBytes`. A Dafny `char` is a
    Unicode scalar value, so every string here is well formed and the
    encoder never needs a replacement character. The decoder is the encoder's
    partner: it inverts it, which makes the encoding injective. */
module Utf8 {
  import opened Wrappers
  import opened Bytes

  /** The code point is a Unicode scalar value (what a Dafny `char` holds). */
  predicate IsScalarValue(cp: int) {
    0 <= cp < 0xD800 || 0xE000 <= cp < 0x11_0000
  }

  /** Number of bytes UTF-8 uses for `c`. */
  function Width(c: char): (w: nat)
    ensures 1 <= w <= 4
  {
    var n := c as int;
    if n < 0x80 then 1 else if n < 0x800 then 2 else if n < 0x1_0000 then 3 else 4
  }

  predicate IsContinuation(b: Byte) {
    0x80 <= b < 0xC0
  }

  /** The bytes of one character: a lead byte carrying the high bits and
      continuation bytes carrying six bits each. */
  function EncodeChar(c: char): (bs: seq<Byte>)
    ensures |bs| == Width(c)
    ensures |bs| == 1 <==> bs[0] < 0x80
    ensures forall i :: 1 <= i < |bs| ==> IsContinuation(bs[i])
  {
    var n := c as int;
    if n < 0x80 then
      [n]
    else if n < 0x800 then
      [0xC0 + n / 64, 0x80 + n % 64]
    else if n < 0x1_0000 then
      [0xE0 + n / 4096, 0x80 + (n / 64) % 64, 0x80 + n % 64]
    else
      [0xF0 + n / 262144, 0x80 + (n / 4096) % 64, 0x80 + (n / 64) % 64, 0x80 + n % 64]
  }

  /** `Encoding.UTF8.GetBytes(s)`. */
  function Encode(s: string): (bs: seq<Byte>)
    ensures |s| <= |bs| <= 4 * |s|
  {
    if s == [] then [] else EncodeChar(s[0]) + Encode(s[1..])
  }

  /** Reads one character from the front of `bs`: the character and the
      number of bytes it took, or None when the front is not a UTF-8
      sequence this decoder accepts. */
  function DecodeChar(bs: seq<Byte>): (r: Option<(char, nat)>)
    ensures r.Some? ==> 1 <= r.value.1 <= |bs|
  {
    if |bs| == 0 then None
    else
      var b0 := bs[0] as int;
      if b0 < 0x80 then
        Some((b0 as char, 1))
      else if 0xC0 <= b0 < 0xE0 && |bs| >= 2 && IsContinuation(bs[1]) then
        var cp := (b0 - 0xC0) * 64 + (bs[1] as int - 0x80);
        Some((cp as char, 2))
      else if 0xE0 <= b0 < 0xF0 && |bs| >= 3 && IsContinuation(bs[1]) && IsContinuation(bs[2]) then
        var cp := (b0 - 0xE0) * 4096 + (bs[1] as int - 0x80) * 64 + (bs[2] as int - 0x80);
        if IsScalarValue(cp) then Some((cp as char, 3)) else None
      else if 0xF0 <= b0 < 0xF8 && |bs| >= 4
              && IsContinuation(bs[1]) && IsContinuation(bs[2]) && IsContinuation(bs[3]) then
        var cp := (b0 - 0xF0) * 262144 + (bs[1] as int - 0x80) * 4096 + (bs[2] as int - 0x80) * 64 + (bs[3] as int - 0x80);
        if IsScalarValue(cp) then Some((cp as char, 4)) else None
      else
        None
  }

  /** Decodes a whole byte sequence. */
  function Decode(bs: seq<Byte>): Option<string>
    decreases |bs|
  {
    if bs == [] then Some([])
    else
      match DecodeChar(bs)
      case None => None
      case Some((c, w)) =>
        match Decode(bs[w..])
        case None => None
        case Some(rest) => Some([c] + rest)
  }

  lemma DivMod64(n: int)
    requires 0 <= n
    ensures n == (n / 64) * 64 + n % 64
    ensures (n / 64) / 64 == n / 4096 && (n / 64) % 64 == (n % 4096) / 64
    ensures (n / 4096) / 64 == n / 262144 && (n / 4096) % 64 == (n % 262144) / 4096
  {
    var q, r := n / 64, n % 64;
    var q2, r2 := q / 64, q % 64;
    assert n == 4096 * q2 + 64 * r2 + r;
    assert 0 <= 64 * r2 + r < 4096;
    var q3, r3 := q2 / 64, q2 % 64;
    assert n == 262144 * q3 + 4096 * r3 + 64 * r2 + r;
    assert 0 <= 4096 * r3 + 64 * r2 + r < 262144;
  }

  /** Decoding the bytes of one character gives that character back, and
      consumes exactly its bytes, whatever follows them. */
  lemma DecodeCharEncodeChar(c: char, rest: seq<Byte>)
    ensures DecodeChar(EncodeChar(c) + rest) == Some((c, Width(c)))
  {
    var n := c as int;
    var bs := EncodeChar(c) + rest;
    DivMod64(n);
    if n < 0x80 {
    } else if n < 0x800 {
      assert bs[0] == 0xC0 + n / 64 && bs[1] == 0x80 + n % 64;
      assert (bs[0] as int - 0xC0) * 64 + (bs[1] as int - 0x80) == n;
    } else if n < 0x1_0000 {
      assert bs[0] == 0xE0 + n / 4096;
      assert (bs[0] as int - 0xE0) * 4096 + (bs[1] as int - 0x80) * 64 + (bs[2] as int - 0x80) == n;
    } else {
      assert bs[0] == 0xF0 + n / 262144;
      assert (bs[0] as int - 0xF0) * 262144 + (bs[1] as int - 0x80) * 4096 + (bs[2] as int - 0x80) * 64 + (bs[3] as int - 0x80) == n;
    }
  }

  /** Round trip: decoding the UTF-8 bytes of a string gives the string. */
  lemma {:induction false} DecodeEncode(s: string)
    ensures Decode(Encode(s)) == Some(s)
  {
    if s != [] {
      var head := EncodeChar(s[0]);
      var bs := Encode(s);
      assert bs == head + Encode(s[1..]);
      DecodeCharEncodeChar(s[0], Encode(s[1..]));
      assert bs[|head|..] == Encode(s[1..]);
      DecodeEncode(s[1..]);
      assert [s[0]] + s[1..] == s;
    }
  }

  /** Different strings have different UTF-8 bytes. */
  lemma EncodeInjective(s: string, t: string)
    requires Encode(s) == Encode(t)
    ensures s == t
  {
    DecodeEncode(s);
    DecodeEncode(t);
  }

  /** Text made of ASCII characters is encoded one byte per character, each
      byte being the character's code. */
  lemma {:induction false} EncodeAscii(s: string)
    requires forall i :: 0 <= i < |s| ==> s[i] as int < 0x80
    ensures |Encode(s)| == |s|
    ensures forall i :: 0 <= i < |s| ==> Encode(s)[i] == s[i] as int
  {
    if s != [] {
      EncodeAscii(s[1..]);
    }
  }
}
