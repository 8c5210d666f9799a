/** What the shortener promises, proved about the functions of
    `GenerationSpec`: how many attempts and calls each pattern of store
    answers leads to, how failures are classified, that a created key can
    be read back, and that the table keeps its shape. */
module GenerationProperties {
  import opened Wrappers
  import opened DotNetText
  import opened Domain
  import opened KeyDerivation
  import opened Validation
  import opened Store
  import opened GenerationSpec

  /** The n-th create call is answered within the per-attempt timeout. */
  predicate InTime(options: Options, o: Oracles, n: nat) {
    o.createResponses(n).Responds? && o.createResponses(n).elapsedMilliseconds <= options.TimeoutMilliseconds()
  }

  /** The `k` attempts made one after the other from `w` all meet key
      conflicts. */
  predicate Conflicts(actualUrl: string, options: Options, keys: nat -> Option<string>, o: Oracles, w: World, k: nat)
    decreases k
  {
    k == 0 || (KeyConflict(actualUrl, options, keys, o, w) && Conflicts(actualUrl, options, keys, o, Advance(w, 1), k - 1))
  }

  /** One conflicting attempt before the last retry: the run is that
      conflict followed by the run from the next attempt. */
  lemma RetryLoopUnfold(actualUrl: string, options: Options, keys: nat -> Option<string>, o: Oracles, w: World, attempt: nat)
    requires attempt < options.retryCount
    requires KeyConflict(actualUrl, options, keys, o, w)
    ensures
      var rest := RetryLoop(actualUrl, options, keys, o, Advance(w, 1), attempt + 1);
      RetryLoop(actualUrl, options, keys, o, w, attempt) == Run(rest.result, rest.world, [Attempt(actualUrl, options, keys, o, w).0] + rest.outcomes)
  {
  }

  /** An attempt that is not a conflict, or the last allowed attempt, ends
      the run: its outcome is the run's only remaining one and decides the
      result. */
  lemma RetryLoopStops(actualUrl: string, options: Options, keys: nat -> Option<string>, o: Oracles, w: World, attempt: nat)
    requires attempt <= options.retryCount
    requires attempt == options.retryCount || !KeyConflict(actualUrl, options, keys, o, w)
    ensures
      var a := Attempt(actualUrl, options, keys, o, w);
      RetryLoop(actualUrl, options, keys, o, w, attempt) == Run(Classify(actualUrl, a.0), a.1, [a.0])
  {
  }

  /** Key conflicts make the retry strategy start over from the advanced
      state: `k` conflicting attempts leave the result and the final state
      to the attempts after them. */
  lemma {:induction false} RetryLoopAfterConflicts(actualUrl: string, options: Options, keys: nat -> Option<string>, o: Oracles, w: World, attempt: nat, k: nat)
    requires attempt + k <= options.retryCount
    requires Conflicts(actualUrl, options, keys, o, w, k)
    decreases k
    ensures
      var run, tail := RetryLoop(actualUrl, options, keys, o, w, attempt), RetryLoop(actualUrl, options, keys, o, Advance(w, k), attempt + k);
      && run.result == tail.result && run.world == tail.world
      && |run.outcomes| == k + |tail.outcomes|
  {
    if k == 0 {
      assert Advance(w, 0) == w;
      assert RetryLoop(actualUrl, options, keys, o, w, attempt) == RetryLoop(actualUrl, options, keys, o, Advance(w, k), attempt + k);
    } else {
      var w1 := Advance(w, 1);
      var rest := RetryLoop(actualUrl, options, keys, o, w1, attempt + 1);
      var tail := RetryLoop(actualUrl, options, keys, o, Advance(w, k), attempt + k);
      assert KeyConflict(actualUrl, options, keys, o, w) && Conflicts(actualUrl, options, keys, o, w1, k - 1);
      RetryLoopAfterConflicts(actualUrl, options, keys, o, w1, attempt + 1, k - 1);
      assert Advance(w1, k - 1) == Advance(w, k);
      assert RetryLoop(actualUrl, options, keys, o, Advance(w1, k - 1), attempt + 1 + (k - 1)) == tail;
      RetryLoopUnfold(actualUrl, options, keys, o, w, attempt);
      assert RetryLoop(actualUrl, options, keys, o, w, attempt)
          == Run(rest.result, rest.world, [Attempt(actualUrl, options, keys, o, w).0] + rest.outcomes);
    }
  }

  /** After `k <= RetryCount` key conflicts, the first attempt that is not a
      conflict decides the call: it is the last attempt, the result is its
      classification and the state is the one it leaves. */
  lemma ConflictsThenSettles(actualUrl: string, options: Options, keys: nat -> Option<string>, o: Oracles, w: World, k: nat)
    requires k <= options.retryCount
    requires Conflicts(actualUrl, options, keys, o, w, k)
    requires !KeyConflict(actualUrl, options, keys, o, Advance(w, k))
    ensures
      var run, last := RetryLoop(actualUrl, options, keys, o, w, 0), Attempt(actualUrl, options, keys, o, Advance(w, k));
      && |run.outcomes| == k + 1
      && run.result == Classify(actualUrl, last.0)
      && run.world == last.1
  {
    RetryLoopAfterConflicts(actualUrl, options, keys, o, w, 0, k);
    RetryLoopStops(actualUrl, options, keys, o, Advance(w, k), k);
  }

  /** `k <= RetryCount` key conflicts followed by an attempt whose fresh key
      is stored: the call succeeds with that key and the URL unchanged, after
      exactly k + 1 salts, k + 1 hashes and k + 1 create calls, and the table
      gains exactly that row. */
  lemma ConflictsThenSuccess(actualUrl: string, options: Options, keys: nat -> Option<string>, o: Oracles, w: World, k: nat)
    requires k <= options.retryCount
    requires Conflicts(actualUrl, options, keys, o, w, k)
    requires keys(w.saltCalls + k).Some? && keys(w.saltCalls + k).value !in w.rows
    requires InTime(options, o, w.createCalls + k) && |actualUrl| <= ActualUrlMaxLength
    ensures
      var run, key := RetryLoop(actualUrl, options, keys, o, w, 0), keys(w.saltCalls + k).value;
      && run.result == Success(ShortenedUrl(key, actualUrl))
      && run.world == w.(rows := w.rows[key := actualUrl],
                         saltCalls := w.saltCalls + k + 1, hashCalls := w.hashCalls + k + 1,
                         createCalls := w.createCalls + k + 1)
  {
    ConflictsThenSettles(actualUrl, options, keys, o, w, k);
  }

  /** All `RetryCount + 1` attempts meet key conflicts: the call fails with
      `CantCreateShortenedUrlException` for the URL wrapping the last
      conflict, after exactly RetryCount + 1 calls to each collaborator, and
      the table is unchanged. */
  lemma ConflictsExhaustRetries(actualUrl: string, options: Options, keys: nat -> Option<string>, o: Oracles, w: World)
    requires Conflicts(actualUrl, options, keys, o, w, options.retryCount)
    requires KeyConflict(actualUrl, options, keys, o, Advance(w, options.retryCount))
    ensures
      var run, n := RetryLoop(actualUrl, options, keys, o, w, 0), options.retryCount;
      var last := Attempt(actualUrl, options, keys, o, Advance(w, n)).0;
      && last.Duplicate?
      && run.result == Failure(CantCreateShortenedUrl(actualUrl, DuplicateShortUrlKey(last.key)))
      && |run.outcomes| == n + 1
      && run.world == Advance(w, n + 1)
  {
    var n := options.retryCount;
    RetryLoopAfterConflicts(actualUrl, options, keys, o, w, 0, n);
    RetryLoopStops(actualUrl, options, keys, o, Advance(w, n), n);
    assert Advance(Advance(w, n), 1) == Advance(w, n + 1);
  }

  /** After `k <= RetryCount` key conflicts, an attempt whose create call
      outlasts the timeout, or whose store raises the timeout exception
      itself, ends the call however many retries are left: it fails with
      `CantCreateShortenedUrlException` wrapping the timeout, after k + 1
      calls to each collaborator, and the table is unchanged. */
  lemma ConflictsThenTimeout(actualUrl: string, options: Options, keys: nat -> Option<string>, o: Oracles, w: World, k: nat)
    requires k <= options.retryCount
    requires Conflicts(actualUrl, options, keys, o, w, k)
    requires keys(w.saltCalls + k).Some?
    requires
      var response := o.createResponses(w.createCalls + k);
      || (response.Responds? && response.elapsedMilliseconds > options.TimeoutMilliseconds())
      || response == Throws(TimeoutRejected)
    ensures
      var run := RetryLoop(actualUrl, options, keys, o, w, 0);
      && run.result == Failure(CantCreateShortenedUrl(actualUrl, TimeoutRejected))
      && run.world == Advance(w, k + 1)
  {
    ConflictsThenSettles(actualUrl, options, keys, o, w, k);
  }

  /** After `k <= RetryCount` key conflicts, a create call that raises any
      exception other than a key conflict or a timeout ends the call with
      that exception, unwrapped and not retried, after k + 1 calls to each
      collaborator. */
  lemma ConflictsThenStoreRaises(actualUrl: string, options: Options, keys: nat -> Option<string>, o: Oracles, w: World, k: nat)
    requires k <= options.retryCount
    requires Conflicts(actualUrl, options, keys, o, w, k)
    requires keys(w.saltCalls + k).Some?
    requires o.createResponses(w.createCalls + k).Throws?
    requires
      var e := o.createResponses(w.createCalls + k).error;
      !e.DuplicateShortUrlKey? && e != TimeoutRejected
    ensures
      var run := RetryLoop(actualUrl, options, keys, o, w, 0);
      && run.result == Failure(o.createResponses(w.createCalls + k).error)
      && run.world == Advance(w, k + 1)
  {
    ConflictsThenSettles(actualUrl, options, keys, o, w, k);
  }

  /** After `k <= RetryCount` key conflicts, a digest shorter than four
      bytes makes the key slice throw `ArgumentOutOfRangeException`, which
      is neither retried nor wrapped; that attempt makes no create call. */
  lemma ConflictsThenShortDigest(actualUrl: string, options: Options, keys: nat -> Option<string>, o: Oracles, w: World, k: nat)
    requires k <= options.retryCount
    requires Conflicts(actualUrl, options, keys, o, w, k)
    requires keys(w.saltCalls + k).None?
    ensures
      var run := RetryLoop(actualUrl, options, keys, o, w, 0);
      && run.result == Failure(KeyTooShort)
      && run.world == w.(saltCalls := w.saltCalls + k + 1, hashCalls := w.hashCalls + k + 1,
                         createCalls := w.createCalls + k)
  {
    ConflictsThenSettles(actualUrl, options, keys, o, w, k);
  }

  /** With digests of SHA-256's size every attempt reaches the store: an
      auto-generate call draws exactly as many salts and hashes, and makes
      exactly as many create calls, as it makes attempts. */
  lemma Sha256AttemptsReachStore(actualUrl: Option<string>, options: Options, o: Oracles, w: World)
    requires Sha256Sized(o.hash)
    ensures var run := AutoGenerate(actualUrl, options, o, w);
      && run.world.saltCalls == w.saltCalls + |run.outcomes|
      && run.world.hashCalls == w.hashCalls + |run.outcomes|
      && run.world.createCalls == w.createCalls + |run.outcomes|
  {
    if HasContent(actualUrl) {
      var url := actualUrl.value;
      forall n: nat
        ensures Keys(url, o)(n).Some?
      {
        assert |o.hash(HashInput(url, o.salts(n)))| == DigestLength;
      }
      RetryLoopShape(url, options, Keys(url, o), o, w, 0);
    }
  }

  /** Create, then read: the key of a successful auto-generate call reads
      back as the entity it returned. */
  lemma AutoGenerateThenLookup(actualUrl: Option<string>, options: Options, o: Oracles, w: World)
    requires AutoGenerate(actualUrl, options, o, w).result.Success?
    requires o.getResponses(AutoGenerate(actualUrl, options, o, w).world.getCalls).Responds?
    ensures var run := AutoGenerate(actualUrl, options, o, w);
      Lookup(run.result.value.urlKey, o, run.world).0 == run.result
  {
    RetryLoopShape(actualUrl.value, options, Keys(actualUrl.value, o), o, w, 0);
  }

  /** Create, then read, on the explicit-key path. */
  lemma ExplicitGenerateThenLookup(shortUrlKey: Option<string>, actualUrl: Option<string>, o: Oracles, w: World)
    requires ExplicitGenerate(shortUrlKey, actualUrl, o, w).0.Success?
    requires o.getResponses(ExplicitGenerate(shortUrlKey, actualUrl, o, w).1.getCalls).Responds?
    ensures var (r, w') := ExplicitGenerate(shortUrlKey, actualUrl, o, w);
      Lookup(r.value.urlKey, o, w').0 == r
  {
  }

  /** The shape of the table the shortener maintains: every key passes the
      key check, every URL the URL check and fits its column. */
  predicate ValidRows(rows: Rows) {
    forall key :: key in rows ==>
      && ValidateShortUrlKey(Some(key)) == Pass
      && ValidateActualUrl(Some(rows[key])) == Pass
      && |rows[key]| <= ActualUrlMaxLength
  }

  /** The table only grows: no row is changed or removed. */
  predicate Extends(rows: Rows, rows': Rows) {
    forall key :: key in rows ==> key in rows' && rows'[key] == rows[key]
  }

  /** An auto-generate call keeps the table's shape and never changes a
      stored row. */
  lemma AutoGenerateKeepsRows(actualUrl: Option<string>, options: Options, o: Oracles, w: World)
    requires ValidRows(w.rows)
    ensures var rows' := AutoGenerate(actualUrl, options, o, w).world.rows;
      ValidRows(rows') && Extends(w.rows, rows')
  {
    var run := AutoGenerate(actualUrl, options, o, w);
    if HasContent(actualUrl) {
      RetryLoopShape(actualUrl.value, options, Keys(actualUrl.value, o), o, w, 0);
      if run.result.Success? {
        DerivedKeyIsValid(run.result.value.urlKey);
      }
    }
  }

  /** An explicit-key call keeps the table's shape and never changes a
      stored row. */
  lemma ExplicitGenerateKeepsRows(shortUrlKey: Option<string>, actualUrl: Option<string>, o: Oracles, w: World)
    requires ValidRows(w.rows)
    ensures var rows' := ExplicitGenerate(shortUrlKey, actualUrl, o, w).1.rows;
      ValidRows(rows') && Extends(w.rows, rows')
  {
    var r := ExplicitGenerate(shortUrlKey, actualUrl, o, w);
    if r.0.Success? {
      var key, url := shortUrlKey.value, actualUrl.value;
      assert ValidateShortUrlKey(shortUrlKey) == Pass && ValidateActualUrl(actualUrl) == Pass;
      assert r.1.rows == w.rows[key := url] && |url| <= ActualUrlMaxLength;
    }
  }
}
