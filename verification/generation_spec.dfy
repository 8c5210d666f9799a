/** What `HashBasedUrlShortener` does, as functions of the collaborators'
    scripts and of the observable state before the call: the table, and how
    many calls the salt source, the hash function and the repository have
    had. The methods of `Shortener.HashBasedUrlShortener` are proved to do
    exactly this; the lemmas here state what it amounts to. */
module GenerationSpec {
  import opened Wrappers
  import opened Bytes
  import opened DotNetText
  import opened Domain
  import opened KeyDerivation
  import opened Validation
  import opened Store

  /** Observable state. */
  datatype World = World(rows: Rows, saltCalls: nat, hashCalls: nat, createCalls: nat, getCalls: nat)

  /** The collaborators: the n-th salt, the hash function, and the
      database's answer to the n-th create and the n-th read. */
  datatype Oracles = Oracles(
    salts: nat -> seq<Byte>,
    hash: seq<Byte> -> seq<Byte>,
    createResponses: nat -> Response,
    getResponses: nat -> Response)

  /** What `base64Hash[..ShortUrlKeyLength]` throws when the text is shorter
      than a key. */
  const KeyTooShort: Error := ArgumentOutOfRange("length")

  /** The world after `n` attempts that each drew a salt and a hash and
      made a create call which changed nothing. */
  function Advance(w: World, n: nat): (w': World)
    ensures w'.rows == w.rows && w'.getCalls == w.getCalls
    ensures w'.saltCalls == w.saltCalls + n && w'.hashCalls == w.hashCalls + n && w'.createCalls == w.createCalls + n
  {
    w.(saltCalls := w.saltCalls + n, hashCalls := w.hashCalls + n, createCalls := w.createCalls + n)
  }

  /** The key each salt draw yields for `actualUrl`: the n-th draw's salt,
      hashed with the URL and cut to a key (None when the slice throws). */
  function Keys(actualUrl: string, o: Oracles): nat -> Option<string> {
    (n: nat) => DeriveKey(actualUrl, o.salts(n), o.hash)
  }

  /** `GenerateShortUrlKey`: one salt, one hash, and the key (None when the
      slice throws). */
  function DrawKey(actualUrl: string, o: Oracles, w: World): (r: (Option<string>, World))
    ensures r.0.Some? ==> IsShortUrlKey(r.0.value)
    ensures r.0 == Keys(actualUrl, o)(w.saltCalls)
    ensures r.1 == w.(saltCalls := w.saltCalls + 1, hashCalls := w.hashCalls + 1)
  {
    var salt := o.salts(w.saltCalls);
    var digest := o.hash(HashInput(actualUrl, salt));
    (KeyFromDigest(digest), w.(saltCalls := w.saltCalls + 1, hashCalls := w.hashCalls + 1))
  }

  /** The attempt made from `w` meets a key conflict: the next salt draw
      yields a key, and either the key is already stored and the store
      answers in time with a URL that fits, or the store raises
      `DuplicateShortUrlKeyException` itself. */
  predicate KeyConflict(actualUrl: string, options: Options, keys: nat -> Option<string>, o: Oracles, w: World) {
    && keys(w.saltCalls).Some?
    && match o.createResponses(w.createCalls)
       case Responds(elapsed) =>
         elapsed <= options.TimeoutMilliseconds() && |actualUrl| <= ActualUrlMaxLength && keys(w.saltCalls).value in w.rows
       case Throws(e) => e.DuplicateShortUrlKey?
  }

  /** One attempt of the auto-generate path (`GenerateInternalAsync` under
      the per-attempt timeout): take the key of the next salt draw from
      `keys` and insert it with the given URL, cancelling after
      `TimeoutSeconds`. */
  function Attempt(actualUrl: string, options: Options, keys: nat -> Option<string>, o: Oracles, w: World)
    : (r: (Outcome, World))
    ensures r.1.saltCalls == w.saltCalls + 1 && r.1.hashCalls == w.hashCalls + 1 && r.1.getCalls == w.getCalls
    ensures keys(w.saltCalls).None? ==> r.0 == Other(KeyTooShort)
    ensures r.1.createCalls == w.createCalls + (if keys(w.saltCalls).None? then 0 else 1)
    ensures r.0.Ok? <==>
      && keys(w.saltCalls).Some?
      && o.createResponses(w.createCalls).Responds?
      && o.createResponses(w.createCalls).elapsedMilliseconds <= options.TimeoutMilliseconds()
      && |actualUrl| <= ActualUrlMaxLength
      && keys(w.saltCalls).value !in w.rows
    ensures r.0.Ok? ==>
      && Some(r.0.created.urlKey) == keys(w.saltCalls)
      && r.0.created.actualUrl == actualUrl
      && r.1.rows == w.rows[r.0.created.urlKey := actualUrl]
    ensures !r.0.Ok? ==> r.1.rows == w.rows
    ensures r.0.Duplicate? <==> KeyConflict(actualUrl, options, keys, o, w)
    ensures r.0.Duplicate? ==> r.1 == Advance(w, 1)
    ensures keys(w.saltCalls).Some? && o.createResponses(w.createCalls).Responds? ==>
      && (r.0.Duplicate? ==> Some(r.0.key) == keys(w.saltCalls))
      && (r.0.TimedOut? <==> o.createResponses(w.createCalls).elapsedMilliseconds > options.TimeoutMilliseconds())
    ensures keys(w.saltCalls).Some? && o.createResponses(w.createCalls).Throws? ==>
      r.0 == Raised(o.createResponses(w.createCalls).error)
  {
    var w1 := w.(saltCalls := w.saltCalls + 1, hashCalls := w.hashCalls + 1);
    match keys(w.saltCalls)
    case None => (Other(KeyTooShort), w1)
    case Some(k) =>
      var (out, rows') := Insert(w1.rows, ShortenedUrl(k, actualUrl), o.createResponses(w1.createCalls),
                                 Some(options.TimeoutMilliseconds()));
      (out, w1.(rows := rows', createCalls := w1.createCalls + 1))
  }

  /** The failure the last attempt's outcome is for. */
  function Cause(out: Outcome): Error
    requires !out.Ok?
  {
    match out
    case Duplicate(key) => DuplicateShortUrlKey(key)
    case TimedOut => TimeoutRejected
    case Other(e) => e
  }

  /** The `catch` of the auto-generate path: an exhausted key conflict and a
      timeout are wrapped into `CantCreateShortenedUrlException` carrying
      the URL and the cause; any other failure passes through as it is. */
  function Classify(actualUrl: string, out: Outcome): (r: Result<ShortenedUrl, Error>)
    ensures r.Success? <==> out.Ok?
    ensures out.Ok? ==> r.value == out.created
    ensures out.Duplicate? || out.TimedOut? ==> r.Failure? && r.error == CantCreateShortenedUrl(actualUrl, Cause(out))
    ensures out.Other? ==> r == Failure(out.error)
  {
    match out
    case Ok(created) => Success(created)
    case Duplicate(_) => Failure(CantCreateShortenedUrl(actualUrl, Cause(out)))
    case TimedOut => Failure(CantCreateShortenedUrl(actualUrl, Cause(out)))
    case Other(e) => Failure(e)
  }

  /** A whole auto-generate call: its result, the state after it, and the
      outcome of every attempt, in order. */
  datatype Run = Run(result: Result<ShortenedUrl, Error>, world: World, outcomes: seq<Outcome>)

  function Last<T>(s: seq<T>): T
    requires s != []
  {
    s[|s| - 1]
  }

  /** The retry strategy from attempt number `attempt` (0 for the first):
      only a key conflict is retried, and only while fewer than
      `RetryCount` retries have been made. `RetryLoopShape` states what a
      run amounts to. */
  function RetryLoop(actualUrl: string, options: Options, keys: nat -> Option<string>, o: Oracles, w: World, attempt: nat)
    : (run: Run)
    requires attempt <= options.retryCount
    decreases options.retryCount - attempt
    ensures 1 <= |run.outcomes| <= options.retryCount - attempt + 1
  {
    var (out, w') := Attempt(actualUrl, options, keys, o, w);
    if out.Duplicate? && attempt < options.retryCount then
      var rest := RetryLoop(actualUrl, options, keys, o, w', attempt + 1);
      Run(rest.result, rest.world, [out] + rest.outcomes)
    else
      Run(Classify(actualUrl, out), w', [out])
  }

  /** A run retries key conflicts only, and stops at the first other
      outcome or when the retries are used up; its result is the
      classification of the last outcome; every attempt draws one salt and
      one hash, and every attempt that has a key makes one create call; a
      successful run adds exactly the row of its key, which was new, and a
      failed one leaves the table as it was. */
  lemma {:induction false} RetryLoopShape(actualUrl: string, options: Options, keys: nat -> Option<string>, o: Oracles, w: World, attempt: nat)
    requires attempt <= options.retryCount
    decreases options.retryCount - attempt
    ensures var run := RetryLoop(actualUrl, options, keys, o, w, attempt);
      && (forall i :: 0 <= i < |run.outcomes| - 1 ==> run.outcomes[i].Duplicate?)
      && (Last(run.outcomes).Duplicate? ==> |run.outcomes| == options.retryCount - attempt + 1)
      && run.result == Classify(actualUrl, Last(run.outcomes))
      && run.world.saltCalls == w.saltCalls + |run.outcomes|
      && run.world.hashCalls == w.hashCalls + |run.outcomes|
      && run.world.createCalls
         == w.createCalls + |run.outcomes| - (if keys(w.saltCalls + |run.outcomes| - 1).None? then 1 else 0)
      && run.world.getCalls == w.getCalls
      && (run.result.Success? ==>
            && run.result.value.actualUrl == actualUrl
            && |actualUrl| <= ActualUrlMaxLength
            && Some(run.result.value.urlKey) == keys(w.saltCalls + |run.outcomes| - 1)
            && run.result.value.urlKey !in w.rows
            && run.world.rows == w.rows[run.result.value.urlKey := actualUrl])
      && (run.result.Failure? ==> run.world.rows == w.rows)
  {
    var (out, w') := Attempt(actualUrl, options, keys, o, w);
    if out.Duplicate? && attempt < options.retryCount {
      RetryLoopShape(actualUrl, options, keys, o, w', attempt + 1);
      var rest := RetryLoop(actualUrl, options, keys, o, w', attempt + 1);
      assert Last([out] + rest.outcomes) == Last(rest.outcomes);
    }
  }

  /** `GenerateAsync(actualUrl)`: validate the URL, then run the retry
      strategy over the keys the salt draws yield. A URL that fails
      validation makes no call at all. */
  function AutoGenerate(actualUrl: Option<string>, options: Options, o: Oracles, w: World): (run: Run)
    ensures !HasContent(actualUrl) ==> run == Run(Failure(Argument("actualUrl")), w, [])
    ensures HasContent(actualUrl) ==> 1 <= |run.outcomes| <= options.retryCount + 1
    ensures run.result.Success? ==>
      && actualUrl == Some(run.result.value.actualUrl)
      && IsShortUrlKey(run.result.value.urlKey)
  {
    match ValidateActualUrl(actualUrl)
    case Fail(e) => Run(Failure(e), w, [])
    case Pass =>
      var url := actualUrl.value;
      var run := RetryLoop(url, options, Keys(url, o), o, w, 0);
      RetryLoopShape(url, options, Keys(url, o), o, w, 0);
      assert run.result.Success? ==> IsShortUrlKey(run.result.value.urlKey) by {
        if run.result.Success? {
          var n := w.saltCalls + |run.outcomes| - 1;
          assert Keys(url, o)(n) == DeriveKey(url, o.salts(n), o.hash);
        }
      }
      run
  }

  /** With a URL that passes validation, `GenerateAsync(actualUrl)` is the
      retry strategy over the keys the salt draws yield. */
  lemma AutoGenerateIsRetryLoop(actualUrl: string, options: Options, o: Oracles, w: World)
    requires HasContent(Some(actualUrl))
    ensures AutoGenerate(Some(actualUrl), options, o, w) == RetryLoop(actualUrl, options, Keys(actualUrl, o), o, w, 0)
  {
  }

  /** The n-th salt draw yields a key exactly when the digest of the URL and
      that salt has at least four bytes, and the key is a well-formed short
      key. */
  lemma KeysYield(actualUrl: string, o: Oracles, n: nat)
    ensures Keys(actualUrl, o)(n).Some? <==> |o.hash(HashInput(actualUrl, o.salts(n)))| >= 4
    ensures Keys(actualUrl, o)(n).Some? ==> IsShortUrlKey(Keys(actualUrl, o)(n).value)
  {
  }

  /** How the explicit-key path surfaces a create outcome: unwrapped. */
  function Unwrapped(out: Outcome): (r: Result<ShortenedUrl, Error>)
    ensures r.Success? <==> out.Ok?
    ensures r.Failure? ==> r.error == Cause(out)
  {
    match out
    case Ok(created) => Success(created)
    case _ => Failure(Cause(out))
  }

  /** `GenerateAsync(shortUrlKey, actualUrl)`: the key is checked first, then
      the URL; then one create call with no deadline and no retry, whose
      outcome is surfaced unwrapped. */
  function ExplicitGenerate(shortUrlKey: Option<string>, actualUrl: Option<string>, o: Oracles, w: World)
    : (r: (Result<ShortenedUrl, Error>, World))
    ensures ValidateShortUrlKey(shortUrlKey).Fail? ==> r == (Failure(ValidateShortUrlKey(shortUrlKey).error), w)
    ensures ValidateShortUrlKey(shortUrlKey).Pass? && !HasContent(actualUrl) ==> r == (Failure(Argument("actualUrl")), w)
    ensures ValidateShortUrlKey(shortUrlKey).Pass? && HasContent(actualUrl) ==>
      var key, url, response := shortUrlKey.value, actualUrl.value, o.createResponses(w.createCalls);
      && r.1.createCalls == w.createCalls + 1
      && r.1.saltCalls == w.saltCalls && r.1.hashCalls == w.hashCalls && r.1.getCalls == w.getCalls
      && (r.0 == Success(ShortenedUrl(key, url)) <==>
            response.Responds? && |url| <= ActualUrlMaxLength && key !in w.rows)
      && (response.Responds? ==>
            && (r.0 == Failure(DuplicateShortUrlKey(key)) <==> |url| <= ActualUrlMaxLength && key in w.rows)
            && (r.0 == Failure(ValueTooLong) <==> |url| > ActualUrlMaxLength))
      && (response.Throws? ==> r.0 == Failure(response.error))
      && (r.0.Success? ==> r.1.rows == w.rows[key := url])
      && (r.0.Failure? ==> r.1.rows == w.rows)
  {
    match ValidateShortUrlKey(shortUrlKey)
    case Fail(e) => (Failure(e), w)
    case Pass =>
      match ValidateActualUrl(actualUrl)
      case Fail(e) => (Failure(e), w)
      case Pass =>
        var (out, rows') := Insert(w.rows, ShortenedUrl(shortUrlKey.value, actualUrl.value),
                                   o.createResponses(w.createCalls), None);
        (Unwrapped(out), w.(rows := rows', createCalls := w.createCalls + 1))
  }

  /** `GetAsync(shortUrlKey)`: one read; an absent key throws
      `ShortenedUrlNotFoundException` carrying it, a failing read passes
      its exception through. */
  function Lookup(shortUrlKey: string, o: Oracles, w: World): (r: (Result<ShortenedUrl, Error>, World))
    ensures r.1 == w.(getCalls := w.getCalls + 1)
    ensures o.getResponses(w.getCalls).Throws? ==> r.0 == Failure(o.getResponses(w.getCalls).error)
    ensures o.getResponses(w.getCalls).Responds? ==>
      && (shortUrlKey in w.rows ==> r.0 == Success(ShortenedUrl(shortUrlKey, w.rows[shortUrlKey])))
      && (shortUrlKey !in w.rows ==> r.0 == Failure(ShortenedUrlNotFound(shortUrlKey)))
  {
    var found := Read(w.rows, shortUrlKey, o.getResponses(w.getCalls));
    var w' := w.(getCalls := w.getCalls + 1);
    match found
    case Failure(e) => (Failure(e), w')
    case Success(None) => (Failure(ShortenedUrlNotFound(shortUrlKey)), w')
    case Success(Some(entity)) => (Success(entity), w')
  }
}
