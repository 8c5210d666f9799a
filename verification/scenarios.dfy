/** The unit tests' set-ups, stated as facts about `GenerationSpec`: a
    hash function that always returns 128 bytes of 1, any salts, any URL
    that passes validation and fits the table, an empty
    table, the default options, and a script of what the create calls do. */
module Scenarios {
  import opened Wrappers
  import opened Bytes
  import opened Domain
  import opened KeyDerivation
  import opened Validation
  import opened Store
  import opened GenerationSpec
  import opened GenerationProperties

  /** The key every attempt derives from the mocked digest. */
  const MockKey: string := "AQEBAQ"

  /** The mocked hash function: 128 bytes of 1 whatever the input. */
  ghost predicate MockedHash(o: Oracles) {
    forall input :: |o.hash(input)| == 128 && forall i :: 0 <= i < 128 ==> o.hash(input)[i] == 1
  }

  const Start: World := World(map[], 0, 0, 0, 0)

  /** Every salt draw of the mocked collaborators yields `MockKey`. */
  lemma MockKeys(url: string, o: Oracles, n: nat)
    requires MockedHash(o)
    ensures Keys(url, o)(n) == Some(MockKey)
  {
    MockedDigestKey(o.hash(HashInput(url, o.salts(n))));
  }

  /** The store raises `DuplicateShortUrlKeyException` three times, then
      stores the row: four attempts, four salts, four hashes, four create
      calls, and the call succeeds with the mocked key. */
  lemma DuplicatesThenStored(url: string, o: Oracles)
    requires HasContent(Some(url)) && |url| <= ActualUrlMaxLength
    requires MockedHash(o)
    requires forall n :: o.createResponses(n) == if n < 3 then Throws(DuplicateShortUrlKey("xxxxx")) else Responds(0)
    ensures
      var run := AutoGenerate(Some(url), DefaultOptions, o, Start);
      && run.result == Success(ShortenedUrl(MockKey, url))
      && run.world == World(map[MockKey := url], 4, 4, 4, 0)
  {
    var keys := Keys(url, o);
    MockKeys(url, o, 0);
    MockKeys(url, o, 1);
    MockKeys(url, o, 2);
    MockKeys(url, o, 3);
    assert Conflicts(url, DefaultOptions, keys, o, Advance(Start, 3), 0);
    assert Conflicts(url, DefaultOptions, keys, o, Advance(Start, 2), 1);
    assert Conflicts(url, DefaultOptions, keys, o, Advance(Start, 1), 2);
    assert Conflicts(url, DefaultOptions, keys, o, Start, 3);
    ConflictsThenSuccess(url, DefaultOptions, keys, o, Start, 3);
    AutoGenerateIsRetryLoop(url, DefaultOptions, o, Start);
  }

  /** The store always raises `DuplicateShortUrlKeyException`: after the
      first attempt and three retries the call fails with
      `CantCreateShortenedUrlException` for the URL, wrapping that
      exception. */
  lemma DuplicatesExhaustRetries(url: string, o: Oracles)
    requires HasContent(Some(url)) && |url| <= ActualUrlMaxLength
    requires MockedHash(o)
    requires forall n :: o.createResponses(n) == Throws(DuplicateShortUrlKey("xxxxx"))
    ensures
      var run := AutoGenerate(Some(url), DefaultOptions, o, Start);
      && run.result == Failure(CantCreateShortenedUrl(url, DuplicateShortUrlKey("xxxxx")))
      && run.world == World(map[], 4, 4, 4, 0)
  {
    var keys := Keys(url, o);
    MockKeys(url, o, 0);
    MockKeys(url, o, 1);
    MockKeys(url, o, 2);
    MockKeys(url, o, 3);
    assert Conflicts(url, DefaultOptions, keys, o, Advance(Start, 2), 1);
    assert Conflicts(url, DefaultOptions, keys, o, Advance(Start, 1), 2);
    assert Conflicts(url, DefaultOptions, keys, o, Start, 3);
    assert KeyConflict(url, DefaultOptions, keys, o, Advance(Start, 3));
    ConflictsExhaustRetries(url, DefaultOptions, keys, o, Start);
    AutoGenerateIsRetryLoop(url, DefaultOptions, o, Start);
  }

  /** The store raises the timeout exception itself: one attempt, and the
      call fails with `CantCreateShortenedUrlException` wrapping it. */
  lemma StoreTimeoutWrapped(url: string, o: Oracles)
    requires HasContent(Some(url)) && |url| <= ActualUrlMaxLength
    requires MockedHash(o)
    requires forall n :: o.createResponses(n) == Throws(TimeoutRejected)
    ensures
      var run := AutoGenerate(Some(url), DefaultOptions, o, Start);
      && run.result == Failure(CantCreateShortenedUrl(url, TimeoutRejected))
      && run.world == World(map[], 1, 1, 1, 0)
  {
    MockKeys(url, o, 0);
    ConflictsThenTimeout(url, DefaultOptions, Keys(url, o), o, Start, 0);
    AutoGenerateIsRetryLoop(url, DefaultOptions, o, Start);
  }

  /** The create call takes four seconds against the two-second timeout:
      one attempt, cancelled, and the call fails with
      `CantCreateShortenedUrlException` wrapping the timeout. */
  lemma SlowStoreTimesOut(url: string, o: Oracles)
    requires HasContent(Some(url)) && |url| <= ActualUrlMaxLength
    requires MockedHash(o)
    requires forall n :: o.createResponses(n) == Responds(4000)
    ensures
      var run := AutoGenerate(Some(url), DefaultOptions, o, Start);
      && run.result == Failure(CantCreateShortenedUrl(url, TimeoutRejected))
      && run.world == World(map[], 1, 1, 1, 0)
  {
    MockKeys(url, o, 0);
    ConflictsThenTimeout(url, DefaultOptions, Keys(url, o), o, Start, 0);
    AutoGenerateIsRetryLoop(url, DefaultOptions, o, Start);
  }

  /** The store raises some other exception: it is passed on as it is,
      after exactly one attempt. */
  lemma OtherFailureNotRetried(url: string, o: Oracles)
    requires HasContent(Some(url)) && |url| <= ActualUrlMaxLength
    requires MockedHash(o)
    requires forall n :: o.createResponses(n) == Throws(StoreFailure("Inner exception"))
    ensures
      var run := AutoGenerate(Some(url), DefaultOptions, o, Start);
      && run.result == Failure(StoreFailure("Inner exception"))
      && run.world == World(map[], 1, 1, 1, 0)
  {
    MockKeys(url, o, 0);
    ConflictsThenStoreRaises(url, DefaultOptions, Keys(url, o), o, Start, 0);
    AutoGenerateIsRetryLoop(url, DefaultOptions, o, Start);
  }

  /** The null, empty and white-space arguments the validation tests use. */
  const Blanks: seq<Option<string>> :=
    [None, Some(""), Some("\U{00A0}"), Some(" "), Some("\t"), Some("\r"), Some("\n"), Some("\n\r")]

  /** Each of them is refused with `ArgumentException`, as a URL before any
      call is made, as a key whatever the URL, and as the URL of a valid
      key. */
  lemma BlanksRejected(blank: Option<string>, other: Option<string>, o: Oracles, w: World)
    requires blank in Blanks
    ensures AutoGenerate(blank, DefaultOptions, o, w) == Run(Failure(Argument("actualUrl")), w, [])
    ensures ExplicitGenerate(blank, other, o, w) == (Failure(Argument("shortUrlKey")), w)
    ensures ValidateShortUrlKey(other).Pass? ==> ExplicitGenerate(other, blank, o, w) == (Failure(Argument("actualUrl")), w)
  {
  }
}
