/** The short key of `GenerateShortUrlKey`, given the salt drawn and the hash
    function: the first `ShortUrlKeyLength` characters of the Base64 text of
    the digest of the URL's UTF-8 bytes followed by the salt. */
module KeyDerivation {
  import opened Wrappers
  import opened Bytes
  import Utf8
  import Base64
  import opened DotNetText
  import opened Domain

  /** Bytes of digest SHA-256 produces. */
  const DigestLength: nat := 32

  /** The hash function answers digests of SHA-256's size, as the production
      provider does. */
  ghost predicate Sha256Sized(hash: seq<Byte> -> seq<Byte>) {
    forall input :: |hash(input)| == DigestLength
  }

  /** A well-formed short key: `ShortUrlKeyLength` characters of the Base64
      alphabet. */
  predicate IsShortUrlKey(key: string) {
    |key| == ShortUrlKeyLength && forall i :: 0 <= i < |key| ==> Base64.IsBase64Char(key[i])
  }

  /** What is hashed: the URL's UTF-8 bytes, then the salt. */
  function HashInput(actualUrl: string, salt: seq<Byte>): (bytes: seq<Byte>)
    ensures |actualUrl| + |salt| <= |bytes| <= 4 * |actualUrl| + |salt|
    ensures bytes[|bytes| - |salt|..] == salt
  {
    Utf8.Encode(actualUrl) + salt
  }

  /** For salts of one length (the production source always draws 64
      bytes) the hashed bytes determine both the URL and the salt. */
  lemma HashInputInjective(url1: string, salt1: seq<Byte>, url2: string, salt2: seq<Byte>)
    requires |salt1| == |salt2|
    requires HashInput(url1, salt1) == HashInput(url2, salt2)
    ensures url1 == url2 && salt1 == salt2
  {
    var b := HashInput(url1, salt1);
    assert Utf8.Encode(url1) == b[..|b| - |salt1|] == Utf8.Encode(url2);
    Utf8.EncodeInjective(url1, url2);
  }

  /** `Convert.ToBase64String(digest)[..ShortUrlKeyLength]`. The slice fails
      (None) when the text is shorter than the key, which happens exactly
      when the digest has fewer than 4 bytes. */
  function KeyFromDigest(digest: seq<Byte>): (key: Option<string>)
    ensures key.Some? <==> |digest| >= 4
    ensures key.Some? ==> IsShortUrlKey(key.value)
    ensures key.Some? ==> key.value == Base64.Encode(digest)[..ShortUrlKeyLength]
  {
    var text := Base64.Encode(digest);
    Base64.EncodeLength(digest);
    if |text| >= ShortUrlKeyLength then
      assert forall i :: 0 <= i < ShortUrlKeyLength ==> Base64.IsBase64Char(text[i]) by {
        forall i | 0 <= i < ShortUrlKeyLength
          ensures Base64.IsBase64Char(text[i])
        {
          Base64.EncodeAlphabet(digest, i);
        }
      }
      Some(text[..ShortUrlKeyLength])
    else
      None
  }

  /** The key `GenerateShortUrlKey` derives for `actualUrl` from `salt`. */
  function DeriveKey(actualUrl: string, salt: seq<Byte>, hash: seq<Byte> -> seq<Byte>): (key: Option<string>)
    ensures key.Some? <==> |hash(HashInput(actualUrl, salt))| >= 4
    ensures key.Some? ==> IsShortUrlKey(key.value)
  {
    KeyFromDigest(hash(HashInput(actualUrl, salt)))
  }

  /** A key always exists for a digest of SHA-256's size. */
  lemma Sha256SizedDigestGivesKey(digest: seq<Byte>)
    requires |digest| == DigestLength
    ensures KeyFromDigest(digest).Some?
  {
  }

  /** A short key is six code units long for .NET too: Base64 characters
      are ASCII. */
  lemma ShortUrlKeyUtf16Length(key: string)
    requires IsShortUrlKey(key)
    ensures Utf16Length(key) == ShortUrlKeyLength
  {
    Utf16LengthBmp(key);
  }

  /** Of a digest of six bytes or more, the key is the four characters of
      the first three bytes and the first two of the next three: only the
      first 36 bits of the digest matter. */
  lemma KeyFromLongDigest(digest: seq<Byte>)
    requires |digest| >= 6
    ensures KeyFromDigest(digest) == Some(
      Base64.EncodeGroup(digest[0], digest[1], digest[2])
      + Base64.EncodeGroup(digest[3], digest[4], digest[5])[..2])
  {
    var rest := digest[3..];
    var g1 := Base64.EncodeGroup(digest[0], digest[1], digest[2]);
    var g2 := Base64.EncodeGroup(rest[0], rest[1], rest[2]);
    var text := Base64.Encode(digest);
    assert text == g1 + Base64.Encode(rest);
    assert Base64.Encode(rest) == g2 + Base64.Encode(rest[3..]);
    assert text == g1 + g2 + Base64.Encode(rest[3..]);
    assert text[..ShortUrlKeyLength] == g1 + g2[..2];
    assert KeyFromDigest(digest).Some?;
  }

  /** Three bytes of value 1 are written "AQEB". */
  lemma OnesGroup()
    ensures Base64.EncodeGroup(1, 1, 1) == "AQEB"
  {
    assert Base64.CharOf(0) == 'A' && Base64.CharOf(16) == 'Q';
    assert Base64.CharOf(4) == 'E' && Base64.CharOf(1) == 'B';
  }

  /** With the unit tests' hash double, which answers 128 bytes of value 1
      whatever it is given, the key is "AQEBAQ". */
  lemma MockedDigestKey(digest: seq<Byte>)
    requires |digest| >= 6
    requires forall i :: 0 <= i < |digest| ==> digest[i] == 1
    ensures KeyFromDigest(digest) == Some("AQEBAQ")
  {
    KeyFromLongDigest(digest);
    assert digest[0] == 1 && digest[1] == 1 && digest[2] == 1;
    assert digest[3] == 1 && digest[4] == 1 && digest[5] == 1;
    OnesGroup();
    assert "AQEB" + "AQEB"[..2] == "AQEBAQ";
  }
}
