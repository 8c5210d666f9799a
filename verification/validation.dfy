/** `ValidateActualUrl` and `ValidateShortUrlKey`: the argument checks made
    before any salt, hash or store call. */
module Validation {
  import opened Wrappers
  import opened DotNetText
  import opened Domain
  import KeyDerivation

  /** Outcome of a check: it passes, or throws `error`. */
  datatype Check = Pass | Fail(error: Error)

  /** The text is non-null and has a character that is not white space. */
  predicate HasContent(s: Option<string>) {
    s.Some? && exists i :: 0 <= i < |s.value| && !IsWhiteSpace(s.value[i])
  }

  /** A URL passes when it is non-null and not blank; otherwise the check
      throws `ArgumentException` naming `actualUrl`. */
  function ValidateActualUrl(actualUrl: Option<string>): (r: Check)
    ensures r.Pass? <==> HasContent(actualUrl)
    ensures r.Fail? ==> r.error == Argument("actualUrl")
  {
    if IsNullOrWhiteSpace(actualUrl) then Fail(Argument("actualUrl")) else Pass
  }

  /** A key passes when it is non-null, not blank and six UTF-16 code units
      long. A blank key throws `ArgumentException`, a key of another length
      `ArgumentOutOfRangeException`, both naming `shortUrlKey`. */
  function ValidateShortUrlKey(shortUrlKey: Option<string>): (r: Check)
    ensures r.Pass? <==> HasContent(shortUrlKey) && Utf16Length(shortUrlKey.value) == ShortUrlKeyLength
    ensures r == Fail(Argument("shortUrlKey")) <==> !HasContent(shortUrlKey)
    ensures r == Fail(ArgumentOutOfRange("shortUrlKey"))
            <==> HasContent(shortUrlKey) && Utf16Length(shortUrlKey.value) != ShortUrlKeyLength
  {
    if IsNullOrWhiteSpace(shortUrlKey) then Fail(Argument("shortUrlKey"))
    else if Utf16Length(shortUrlKey.value) != ShortUrlKeyLength then Fail(ArgumentOutOfRange("shortUrlKey"))
    else Pass
  }

  /** Every key the shortener derives is one its explicit-key path accepts. */
  lemma DerivedKeyIsValid(key: string)
    requires KeyDerivation.IsShortUrlKey(key)
    ensures ValidateShortUrlKey(Some(key)) == Pass
  {
    KeyDerivation.ShortUrlKeyUtf16Length(key);
    assert !IsWhiteSpace(key[0]);
  }
}
