# In-house URL shortener: the hash-based key generator

This project models `HashBasedUrlShortener`, the service of the in-house URL
shortener that turns a long URL into a six-character key, stores the pair, and
reads it back. The model covers its three public operations:

- `GetAsync(shortUrlKey)` reads a key back, or throws `ShortenedUrlNotFoundException`.
- `GenerateAsync(actualUrl)` derives the key itself.
- `GenerateAsync(shortUrlKey, actualUrl)` uses the caller's key.

Key derivation is modelled in full. The URL's UTF-8 bytes are followed by a
salt, then hashed. The digest is Base64-encoded, as in section 4 of RFC 4648,
and its first six characters are kept. UTF-8 and Base64 each come with a decoder
that is proved to invert them.

The collaborators appear only through their interfaces:

- The salt source answers the n-th call from a script of salts.
- The hash function is a function given as a parameter.
- The repository is a table from key to URL, plus a script of how the database
  answers each create and each read. It either answers after some milliseconds or
  raises an exception. Every collaborator counts its calls, as the unit tests' mocks do.

`GenerationSpec` states each operation as a function of the scripts and of
the observable state. The observable state is the table and the call counters.
The class `Shortener.HashBasedUrlShortener` implements the operations as methods
that change that state. Each method is proved to match its function, including
the retry loop of `GenerateAsync(actualUrl)`.

`GenerationProperties` and `Scenarios` prove what the code promises:

- which store answers are retried and how often;
- which failures are wrapped into `CantCreateShortenedUrlException`;
- how many calls each collaborator receives;
- that a created key reads back;
- that the table only grows, keeping keys and URLs valid.

The timeout strategy is added after the retry strategy (`HashBasedUrlShortener.cs:52-63`).
The timeout therefore bounds each attempt on its own. It is not a deadline
across all attempts. A slow attempt ends the call with a wrapped timeout,
whatever retries are left, but a timeout never accumulates over several fast
conflicting attempts.

The store can raise any exception. The classification is by exception type, as
in the `catch` at `HashBasedUrlShortener.cs:74-84`. Suppose the repository throws
`TimeoutRejectedException` or `DuplicateShortUrlKeyException` itself, as the unit
tests' mocks do. These are then treated like a cancelled attempt or a key
conflict.

## Model

| member | source | states |
|---|---|---|
| Utf8.EncodeChar | app/IHUS.Domain/Services/Generation/Implementations/HashBasedUrlShortener.cs:100 | one character takes 1 to 4 bytes; it is a single byte exactly for ASCII; every byte after the first is a continuation byte |
| Utf8.Encode | app/IHUS.Domain/Services/Generation/Implementations/HashBasedUrlShortener.cs:100 | a string of n characters takes between n and 4n bytes |
| Utf8.DecodeCharEncodeChar | app/IHUS.Domain/Services/Generation/Implementations/HashBasedUrlShortener.cs:100 | decoding the bytes of one character gives that character back and consumes exactly its width, whatever follows |
| Utf8.DecodeEncode | app/IHUS.Domain/Services/Generation/Implementations/HashBasedUrlShortener.cs:100 | decoding the UTF-8 bytes of any string gives the string back |
| Utf8.EncodeInjective | app/IHUS.Domain/Services/Generation/Implementations/HashBasedUrlShortener.cs:100 | different well-formed URLs (Unicode scalar values only) give different bytes to hash |
| Utf8.EncodeAscii | app/IHUS.Domain/Services/Generation/Implementations/HashBasedUrlShortener.cs:100 | ASCII text is encoded one byte per character, each byte being the character's code |
| Base64.Encode | app/IHUS.Domain/Services/Generation/Implementations/HashBasedUrlShortener.cs:104 | `Convert.ToBase64String`: every character is from the standard alphabet or the '=' padding; its length is given by `EncodeLength`, and `Decode` inverts it (`DecodeEncode`) |
| Base64.CharOf | app/IHUS.Domain/Services/Generation/Implementations/HashBasedUrlShortener.cs:104 | every 6-bit value is written with a character of the 64-letter alphabet |
| Base64.IndexOf | app/IHUS.Domain/Services/Generation/Implementations/HashBasedUrlShortener.cs:104 | the value read from an alphabet character is the one that character writes |
| Base64.IndexOfCharOf | app/IHUS.Domain/Services/Generation/Implementations/HashBasedUrlShortener.cs:104 | reading back the character of a 6-bit value gives the value |
| Base64.EncodeLength | app/IHUS.Domain/Services/Generation/Implementations/HashBasedUrlShortener.cs:104 | the text of n bytes is 4 * ceil(n / 3) characters long |
| Base64.EncodeAlphabet | app/IHUS.Domain/Services/Generation/Implementations/HashBasedUrlShortener.cs:104 | every character before the '=' padding is in the alphabet |
| Base64.DecodeEncode | app/IHUS.Domain/Services/Generation/Implementations/HashBasedUrlShortener.cs:104 | decoding the text of any digest gives the digest back |
| Base64.EncodeInjective | app/IHUS.Domain/Services/Generation/Implementations/HashBasedUrlShortener.cs:104 | different digests have different texts |
| DotNetText.IsWhiteSpace | app/IHUS.Domain/Services/Generation/Implementations/HashBasedUrlShortener.cs:126 | `char.IsWhiteSpace`: every white-space character lies in the Basic Multilingual Plane |
| DotNetText.WhiteSpaceIsListed | app/IHUS.Domain/Services/Generation/Implementations/HashBasedUrlShortener.cs:126 | white space is exactly the 25 code points .NET accepts: U+0009 to U+000D, U+0085, U+0020, U+00A0, U+1680, U+2000 to U+200A, U+202F, U+205F, U+3000, U+2028 and U+2029 |
| DotNetText.IsNullOrWhiteSpace | app/IHUS.Domain/Services/Generation/Implementations/HashBasedUrlShortener.cs:126 | `string.IsNullOrWhiteSpace`: null and the empty string are blank |
| DotNetText.NullOrWhiteSpaceConcat | app/IHUS.Domain/Services/Generation/Implementations/HashBasedUrlShortener.cs:136 | a text is blank exactly when both of its parts are |
| DotNetText.Utf16Length | app/IHUS.Domain/Services/Generation/Implementations/HashBasedUrlShortener.cs:143 | `string.Length` counts between one and two code units per character |
| DotNetText.Utf16LengthBmp | app/IHUS.Domain/Services/Generation/Implementations/HashBasedUrlShortener.cs:143 | the .NET length equals the number of characters exactly when none lies outside the Basic Multilingual Plane |
| KeyDerivation.HashInput | app/IHUS.Domain/Services/Generation/Implementations/HashBasedUrlShortener.cs:100-102 | the hashed bytes are the URL's bytes followed by the salt, which ends them |
| KeyDerivation.HashInputInjective | app/IHUS.Domain/Services/Generation/Implementations/HashBasedUrlShortener.cs:100-102 | for well-formed URLs and salts of one length, the hashed bytes determine both the URL and the salt |
| KeyDerivation.KeyFromDigest | app/IHUS.Domain/Services/Generation/Implementations/HashBasedUrlShortener.cs:104-105 | the slice succeeds exactly when the digest has at least 4 bytes; the key is then six Base64 alphabet characters, the first six of the digest's text |
| KeyDerivation.DeriveKey | app/IHUS.Domain/Services/Generation/Implementations/HashBasedUrlShortener.cs:100-105 | a key exists exactly when the digest of URL and salt has at least 4 bytes, and it is a well-formed short key |
| KeyDerivation.Sha256SizedDigestGivesKey | app/IHUS.Domain/Services/Generation/Implementations/Sha256HashProvider.cs:8-11 | a 32-byte SHA-256 digest always yields a key |
| KeyDerivation.ShortUrlKeyUtf16Length | app/IHUS.Domain/Services/Generation/Implementations/HashBasedUrlShortener.cs:143 | a derived key is six UTF-16 code units long |
| KeyDerivation.KeyFromLongDigest | app/IHUS.Domain/Services/Generation/Implementations/HashBasedUrlShortener.cs:104-105 | for a digest of 6 bytes or more, only its first 36 bits decide the key |
| KeyDerivation.MockedDigestKey | app/server/IHUS.Domain.Tests.Unit/HashBasedUrlShortenerTests.cs:31-33 | the tests' all-ones digest gives the key "AQEBAQ" |
| Validation.ValidateActualUrl | app/IHUS.Domain/Services/Generation/Implementations/HashBasedUrlShortener.cs:124-132 | a URL passes exactly when it is non-null and not white space only; otherwise it throws `ArgumentException` naming `actualUrl` |
| Validation.ValidateShortUrlKey | app/IHUS.Domain/Services/Generation/Implementations/HashBasedUrlShortener.cs:134-147 | a key passes exactly when it has content and a .NET length of 6; a blank key throws `ArgumentException`, any other length `ArgumentOutOfRangeException`, both naming `shortUrlKey` |
| Validation.DerivedKeyIsValid | app/IHUS.Domain/Services/Generation/Implementations/HashBasedUrlShortener.cs:134-147 | every derived key passes the explicit path's key check |
| Store.Raised | app/IHUS.Domain/Services/Generation/Implementations/HashBasedUrlShortener.cs:74-84 | a raised exception is a key conflict exactly when it is `DuplicateShortUrlKeyException` with its key, a timeout exactly when it is `TimeoutRejectedException`, and otherwise passes on as it is; it is never a success |
| Store.Insert | app/IHUS.Infrastructure/Repositories/ShortenedUrlRepository.cs:20-39 | an insert succeeds exactly when the database answers before the deadline, the URL fits the column and the key is new; a success adds exactly that row, and any failure leaves the table alone; a stored key is a duplicate, a late answer a timeout, an over-long URL a store error, and a raised exception is sorted by `Raised` |
| Store.Read | app/IHUS.Infrastructure/Repositories/ShortenedUrlRepository.cs:41-52 | a read finds the stored row of the key exactly when it is stored, and otherwise passes on the raised exception |
| Store.Repository.Create | app/IHUS.Infrastructure/Repositories/ShortenedUrlRepository.cs:20-39 | updates the table as `Insert` says, with the next scripted answer, and counts one create call |
| Store.Repository.Get | app/IHUS.Infrastructure/Repositories/ShortenedUrlRepository.cs:41-52 | answers as `Read` says and counts one read, changing nothing else |
| Providers.SaltProvider.GetSalt | app/IHUS.Domain/Services/Generation/Implementations/HashBasedUrlShortener.cs:101 | returns the next salt of the script and counts the call |
| Providers.HashProvider.CalculateHash | app/IHUS.Domain/Services/Generation/Implementations/HashBasedUrlShortener.cs:103 | returns the digest of its input and counts the call |
| GenerationSpec.DrawKey | app/IHUS.Domain/Services/Generation/Implementations/HashBasedUrlShortener.cs:98-110 | one salt and one hash are drawn; the key is the one the salt draw yields, and it is well formed |
| GenerationSpec.Attempt | app/IHUS.Domain/Services/Generation/Implementations/HashBasedUrlShortener.cs:88-96 | an attempt succeeds exactly when its key exists, the store answers in time, the URL fits and the key is new, and it then adds that row; it is a conflict exactly when `KeyConflict` holds, changing nothing but the counters; a missing key throws `ArgumentOutOfRangeException` with no create call; a late answer is a timeout; a raised exception is sorted by `Raised` |
| GenerationSpec.Classify | app/IHUS.Domain/Services/Generation/Implementations/HashBasedUrlShortener.cs:74-84 | a conflict and a timeout are wrapped into `CantCreateShortenedUrlException` with the URL and the cause; any other failure passes unchanged; a success returns the created entity |
| GenerationSpec.RetryLoop | app/IHUS.Domain/Services/Generation/Implementations/HashBasedUrlShortener.cs:52-58 | a call makes at least one attempt and at most `RetryCount + 1` |
| GenerationSpec.RetryLoopShape | app/IHUS.Domain/Services/Generation/Implementations/HashBasedUrlShortener.cs:52-84 | only conflicts are retried, and a run ends with a conflict only when the retries are used up; the result classifies the last outcome; each attempt draws one salt and one hash, and makes one create call when it has a key; a success stores one new row with its key and the URL, and a failure leaves the table as it was |
| GenerationSpec.AutoGenerate | app/IHUS.Domain/Services/Generation/Implementations/HashBasedUrlShortener.cs:48-86 | a blank URL fails with `ArgumentException` before any call; otherwise there are 1 to `RetryCount + 1` attempts, and a success returns the given URL with a well-formed key |
| GenerationSpec.AutoGenerateIsRetryLoop | app/IHUS.Domain/Services/Generation/Implementations/HashBasedUrlShortener.cs:48-72 | after validation, the call is the retry loop over the keys the salt draws yield |
| GenerationSpec.KeysYield | app/IHUS.Domain/Services/Generation/Implementations/HashBasedUrlShortener.cs:100-105 | the n-th salt draw yields a key exactly when its digest has at least 4 bytes, and that key is well formed |
| GenerationSpec.Unwrapped | app/IHUS.Domain/Services/Generation/Implementations/HashBasedUrlShortener.cs:119-121 | the explicit path succeeds exactly when the insert does, and otherwise fails with the insert's own exception |
| GenerationSpec.ExplicitGenerate | app/IHUS.Domain/Services/Generation/Implementations/HashBasedUrlShortener.cs:112-122 | the key is checked before the URL, and both are checked before any call; then there is one create call with no deadline and no retry; it succeeds exactly when the URL fits and the key is new; a stored key fails with `DuplicateShortUrlKeyException` for that key, unwrapped; a raised exception passes on as it is |
| GenerationSpec.Lookup | app/IHUS.Domain/Services/Generation/Implementations/HashBasedUrlShortener.cs:39-46 | one read; a stored key returns its row, an absent key throws `ShortenedUrlNotFoundException` carrying the key, and a failing read passes its exception on |
| GenerationProperties.RetryLoopUnfold | app/IHUS.Domain/Services/Generation/Implementations/HashBasedUrlShortener.cs:53-57 | a conflict with retries left is followed by the run from the next attempt |
| GenerationProperties.RetryLoopStops | app/IHUS.Domain/Services/Generation/Implementations/HashBasedUrlShortener.cs:53-57 | an attempt that is not a conflict, or the last allowed one, ends the run and decides its result |
| GenerationProperties.RetryLoopAfterConflicts | app/IHUS.Domain/Services/Generation/Implementations/HashBasedUrlShortener.cs:53-57 | after k conflicts, the result and the final state are those of the run that starts after them |
| GenerationProperties.ConflictsThenSettles | app/IHUS.Domain/Services/Generation/Implementations/HashBasedUrlShortener.cs:52-84 | after k <= `RetryCount` conflicts, the first attempt that is not a conflict is the last one and decides the result and the state |
| GenerationProperties.ConflictsThenSuccess | app/IHUS.Domain/Services/Generation/Implementations/HashBasedUrlShortener.cs:52-72 | k <= `RetryCount` conflicts and then a new key: success after exactly k + 1 salts, hashes and create calls, with exactly that row added |
| GenerationProperties.ConflictsExhaustRetries | app/IHUS.Domain/Services/Generation/Implementations/HashBasedUrlShortener.cs:52-84 | `RetryCount + 1` conflicts: `CantCreateShortenedUrlException` for the URL, wrapping the last conflict, after exactly `RetryCount + 1` calls of each kind, with the table unchanged |
| GenerationProperties.ConflictsThenTimeout | app/IHUS.Domain/Services/Generation/Implementations/HashBasedUrlShortener.cs:59-84 | an attempt that outlasts the timeout, or whose store raises the timeout, ends the call with a wrapped timeout, whatever retries are left |
| GenerationProperties.ConflictsThenStoreRaises | app/IHUS.Domain/Services/Generation/Implementations/HashBasedUrlShortener.cs:74-84 | any other exception from the store ends the call unwrapped and unretried |
| GenerationProperties.ConflictsThenShortDigest | app/IHUS.Domain/Services/Generation/Implementations/HashBasedUrlShortener.cs:105 | a digest under 4 bytes ends the call with `ArgumentOutOfRangeException`, unretried and unwrapped, and that attempt makes no create call |
| GenerationProperties.Sha256AttemptsReachStore | app/IHUS.Domain/Services/Generation/Implementations/HashBasedUrlShortener.cs:88-105 | with 32-byte digests, the salt, hash and create calls each equal the number of attempts |
| GenerationProperties.AutoGenerateThenLookup | app/server/IHUS.WebAPI.Tests.Integration/UrlShortenerControllerTests.cs:13-47 | the key of a successful auto-generate call reads back as the entity it returned |
| GenerationProperties.ExplicitGenerateThenLookup | app/IHUS.Domain/Services/Generation/Implementations/HashBasedUrlShortener.cs:112-122 | the key of a successful explicit-key call reads back as its entity |
| GenerationProperties.AutoGenerateKeepsRows | app/IHUS.Infrastructure/Migrations/20220708110948_Initial.cs:9-15 | an auto-generate call never changes or removes a stored row, and every row keeps a valid key and a valid, fitting URL |
| GenerationProperties.ExplicitGenerateKeepsRows | app/IHUS.Infrastructure/Migrations/20220708110948_Initial.cs:9-15 | the same for an explicit-key call |
| Scenarios.MockKeys | app/server/IHUS.Domain.Tests.Unit/HashBasedUrlShortenerTests.cs:31-37 | with the mocked hash, every salt draw yields "AQEBAQ" |
| Scenarios.DuplicatesThenStored | app/server/IHUS.Domain.Tests.Unit/HashBasedUrlShortenerTests.cs:215-240 | three raised conflicts, then a completed insert: success, with exactly four salts, hashes and create calls |
| Scenarios.DuplicatesExhaustRetries | app/server/IHUS.Domain.Tests.Unit/HashBasedUrlShortenerTests.cs:191-213 | conflicts every time: `CantCreateShortenedUrlException` wrapping the raised conflict, after four calls of each kind |
| Scenarios.StoreTimeoutWrapped | app/server/IHUS.Domain.Tests.Unit/HashBasedUrlShortenerTests.cs:169-189 | a raised timeout is wrapped after one attempt |
| Scenarios.SlowStoreTimesOut | app/server/IHUS.Domain.Tests.Unit/HashBasedUrlShortenerTests.cs:259-274 | a four-second insert against the two-second timeout ends in a wrapped timeout |
| Scenarios.OtherFailureNotRetried | app/server/IHUS.Domain.Tests.Unit/HashBasedUrlShortenerTests.cs:242-257 | another exception passes on unwrapped, after exactly one call of each kind |
| Scenarios.BlanksRejected | app/server/IHUS.Domain.Tests.Unit/HashBasedUrlShortenerTests.cs:131-167 | every null, empty or white-space argument of the tests is refused with `ArgumentException` before any call |
| Shortener.HashBasedUrlShortener.constructor | app/IHUS.Domain/Services/Generation/Implementations/HashBasedUrlShortener.cs:23-37 | keeps the three collaborators and the options |
| Shortener.HashBasedUrlShortener.Get | app/IHUS.Domain/Services/Generation/Implementations/HashBasedUrlShortener.cs:39-46 | returns and leaves behind exactly what `Lookup` says |
| Shortener.HashBasedUrlShortener.GenerateShortUrlKey | app/IHUS.Domain/Services/Generation/Implementations/HashBasedUrlShortener.cs:98-110 | returns the key and the counters `DrawKey` says |
| Shortener.HashBasedUrlShortener.GenerateInternal | app/IHUS.Domain/Services/Generation/Implementations/HashBasedUrlShortener.cs:88-96 | returns the outcome and leaves the state `Attempt` says |
| Shortener.HashBasedUrlShortener.Generate | app/IHUS.Domain/Services/Generation/Implementations/HashBasedUrlShortener.cs:48-86 | the retry loop returns the result and leaves the state `AutoGenerate` says |
| Shortener.HashBasedUrlShortener.GenerateWithKey | app/IHUS.Domain/Services/Generation/Implementations/HashBasedUrlShortener.cs:112-122 | returns the result and leaves the state `ExplicitGenerate` says |

## Left out

- Asynchrony and cancellation tokens are not modelled. That includes the `ThrowIfCancellationRequested` at the end of key derivation; deriving a key takes no time in the model. Elapsed time exists only as the store's scripted answer time for each create call.
- Polly's machinery is not modelled: the delay between retries, and its validation of the options when the pipeline is built. A retry count and a timeout are any natural numbers here.
- The constructor's null checks are not modelled: the collaborators and the options are never null in Dafny.
- `GetAsync` takes a non-null key here. The repository's handling of a null key is not part of this model.
- SHA-256 and the random number generator are left as parameters. Of SHA-256 only the digest size is stated: `KeyDerivation.Sha256Sized`, which `Providers.HashProvider.IsProduction` and `GenerationProperties.Sha256AttemptsReachStore` use. The 64-byte size of the production salts is not modelled; no property here depends on it.
- Utf8.EncodeInjective holds only for well-formed text. A Dafny string is a sequence of Unicode scalar values, so a .NET string holding an unpaired surrogate (U+D800 to U+DFFF on its own) cannot be represented. For such a string `Encoding.UTF8.GetBytes` writes the replacement bytes EF BF BD in its place. `"\uD800"` and `"\uDC00"` therefore give the same bytes, and the encoding is not injective on all .NET strings.
- KeyDerivation.HashInputInjective holds only for well-formed URLs, for the same reason: two URLs that differ only in unpaired surrogates hash the same bytes. Likewise `string.Length` counts an unpaired surrogate as one code unit, so a six-unit key holding one passes `ValidateShortUrlKey` in .NET, but it is outside the model.
- PostgreSQL's fixed-width `char(6)` key column, with its space padding, is not modelled. Keys are compared as plain strings.
- A database error other than a unique violation is modelled as an `Error` value carrying a description. That includes the over-long URL refused by the column width. .NET exception types beyond those the shortener distinguishes are not modelled.
- The web layer, dependency injection and the migrator are not part of this model.
