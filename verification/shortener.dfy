/** `HashBasedUrlShortener`: the service that creates short keys for URLs,
    stores them through the repository, and reads them back. Each method is
    proved to do exactly what the function of the same name in
    `GenerationSpec` describes, over the observable state `State()` of its
    collaborators. */
module Shortener {
  import opened Wrappers
  import opened Bytes
  import opened Domain
  import opened KeyDerivation
  import opened Validation
  import opened Store
  import opened Providers
  import opened GenerationSpec

  class HashBasedUrlShortener {
    const hashProvider: HashProvider
    const repository: Repository
    const saltProvider: SaltProvider
    const options: Options

    constructor (hashProvider: HashProvider, repository: Repository, saltProvider: SaltProvider, options: Options)
      ensures this.hashProvider == hashProvider && this.repository == repository
      ensures this.saltProvider == saltProvider && this.options == options
    {
      this.hashProvider := hashProvider;
      this.repository := repository;
      this.saltProvider := saltProvider;
      this.options := options;
    }

    /** What the collaborators have been asked so far, and the table. */
    function State(): World
      reads repository, saltProvider, hashProvider
    {
      World(repository.rows, saltProvider.calls, hashProvider.calls, repository.createCalls, repository.getCalls)
    }

    /** How the collaborators will answer. */
    function Collaborators(): Oracles {
      Oracles(saltProvider.salts, hashProvider.hash, repository.createResponses, repository.getResponses)
    }

    /** `GetAsync(shortUrlKey)`. */
    method Get(shortUrlKey: string) returns (r: Result<ShortenedUrl, Error>)
      modifies repository
      ensures (r, State()) == Lookup(shortUrlKey, Collaborators(), old(State()))
    {
      var found := repository.Get(shortUrlKey);
      match found
      case Failure(e) => r := Failure(e);
      case Success(None) => r := Failure(ShortenedUrlNotFound(shortUrlKey));
      case Success(Some(entity)) => r := Success(entity);
    }

    /** `GenerateShortUrlKey(actualUrl, token)`: hash the URL's UTF-8 bytes
        followed by a fresh salt, and keep the first `ShortUrlKeyLength`
        characters of the digest's Base64 text (None when the text is
        shorter and the slice throws). */
    method GenerateShortUrlKey(actualUrl: string) returns (key: Option<string>)
      modifies saltProvider, hashProvider
      ensures (key, State()) == DrawKey(actualUrl, Collaborators(), old(State()))
    {
      ghost var w := State();
      var salt := saltProvider.GetSalt();
      var digest := hashProvider.CalculateHash(HashInput(actualUrl, salt));
      key := KeyFromDigest(digest);
      assert digest == Collaborators().hash(HashInput(actualUrl, Collaborators().salts(w.saltCalls)));
      assert State() == w.(saltCalls := w.saltCalls + 1, hashCalls := w.hashCalls + 1);
    }

    /** `GenerateInternalAsync(actualUrl, token)` under the per-attempt
        timeout: derive a key and create the entity, the create call being
        cancelled after `TimeoutSeconds`. */
    method GenerateInternal(actualUrl: string) returns (outcome: Outcome)
      modifies saltProvider, hashProvider, repository
      ensures (outcome, State())
           == Attempt(actualUrl, options, Keys(actualUrl, Collaborators()), Collaborators(), old(State()))
    {
      var key := GenerateShortUrlKey(actualUrl);
      match key
      case None =>
        outcome := Other(KeyTooShort);
      case Some(k) =>
        outcome := repository.Create(ShortenedUrl(k, actualUrl), Some(options.TimeoutMilliseconds()));
    }

    /** `GenerateAsync(actualUrl, token)`: validate the URL, then make
        attempts while they meet key conflicts and retries are left; an
        exhausted conflict or a timeout is wrapped with the URL, anything
        else is passed on. */
    method Generate(actualUrl: Option<string>) returns (r: Result<ShortenedUrl, Error>)
      modifies saltProvider, hashProvider, repository
      ensures r == AutoGenerate(actualUrl, options, Collaborators(), old(State())).result
      ensures State() == AutoGenerate(actualUrl, options, Collaborators(), old(State())).world
    {
      match ValidateActualUrl(actualUrl)
      case Fail(e) =>
        r := Failure(e);
      case Pass =>
        var url := actualUrl.value;
        ghost var keys := Keys(url, Collaborators());
        ghost var w0 := State();
        ghost var before := State();
        var attempt := 0;
        var outcome := GenerateInternal(url);
        while outcome.Duplicate? && attempt < options.retryCount
          invariant attempt <= options.retryCount
          invariant (outcome, State()) == Attempt(url, options, keys, Collaborators(), before)
          invariant RetryLoop(url, options, keys, Collaborators(), w0, 0).result
                 == RetryLoop(url, options, keys, Collaborators(), before, attempt).result
          invariant RetryLoop(url, options, keys, Collaborators(), w0, 0).world
                 == RetryLoop(url, options, keys, Collaborators(), before, attempt).world
          decreases options.retryCount - attempt
        {
          before := State();
          attempt := attempt + 1;
          outcome := GenerateInternal(url);
        }
        match outcome
        case Ok(created) =>
          r := Success(created);
        case Duplicate(key) =>
          r := Failure(CantCreateShortenedUrl(url, DuplicateShortUrlKey(key)));
        case TimedOut =>
          r := Failure(CantCreateShortenedUrl(url, TimeoutRejected));
        case Other(e) =>
          r := Failure(e);
    }

    /** `GenerateAsync(shortUrlKey, actualUrl)`: validate both, then one
        create call with no deadline and no retry; its failure is passed on
        as it is. */
    method GenerateWithKey(shortUrlKey: Option<string>, actualUrl: Option<string>) returns (r: Result<ShortenedUrl, Error>)
      modifies repository
      ensures (r, State()) == ExplicitGenerate(shortUrlKey, actualUrl, Collaborators(), old(State()))
    {
      match ValidateShortUrlKey(shortUrlKey)
      case Fail(e) =>
        r := Failure(e);
      case Pass =>
        match ValidateActualUrl(actualUrl)
        case Fail(e) =>
          r := Failure(e);
        case Pass =>
          var entity := ShortenedUrl(shortUrlKey.value, actualUrl.value);
          var outcome := repository.Create(entity, None);
          if outcome.Ok? {
            r := Success(entity);
          } else {
            r := Failure(Cause(outcome));
          }
    }
  }
}
