/** The shortened-URL store as the shortener sees it through
    `IShortenedUrlRepository`: a table keyed by the short key (its primary
    key), whose URL column holds at most `ActualUrlMaxLength` characters.
    Latency and failures of the database are not decided by the table; each
    call takes them from a response script given when the store is made. */
module Store {
  import opened Wrappers
  import opened Domain

  /** How the store answers one call: after some milliseconds, or by
      raising an exception (a lost connection, or whatever a substitute for
      the store throws). */
  datatype Response = Responds(elapsedMilliseconds: nat) | Throws(error: Error)

  /** What one `CreateAsync` call comes to, sorted as the auto-generate
      path's retry predicate and `catch` sort exceptions. */
  datatype Outcome =
    | Ok(created: ShortenedUrl)
      /** a `DuplicateShortUrlKeyException` */
    | Duplicate(key: string)
      /** a `TimeoutRejectedException`: the attempt ran out of time */
    | TimedOut
      /** any other exception */
    | Other(error: Error)

  /** The outcome an exception raised by the store stands for. */
  function Raised(e: Error): (out: Outcome)
    ensures out.Duplicate? <==> e.DuplicateShortUrlKey?
    ensures out.Duplicate? ==> out.key == e.shortUrlKey
    ensures out.TimedOut? <==> e == TimeoutRejected
    ensures out.Other? ==> out.error == e
    ensures !out.Ok?
  {
    match e
    case DuplicateShortUrlKey(key) => Duplicate(key)
    case TimeoutRejected => TimedOut
    case _ => Other(e)
  }

  /** PostgreSQL's complaint about a URL wider than its column. */
  const ValueTooLong: Error := StoreFailure("22001: value too long for type character varying(2000)")

  /** Rows of the table: short key to URL. */
  type Rows = map<string, string>

  /** One insert of `entity`, cancelled when the database takes longer than
      `deadline` milliseconds (no deadline: never cancelled). A unique
      violation on the key becomes `DuplicateShortUrlKeyException`; any
      exception raised on the way is passed on. Only an insert that
      succeeds changes the rows, and it adds the one new row. */
  function Insert(rows: Rows, entity: ShortenedUrl, response: Response, deadline: Option<nat>): (r: (Outcome, Rows))
    ensures r.0.Ok? <==>
      && response.Responds?
      && (deadline.Some? ==> response.elapsedMilliseconds <= deadline.value)
      && |entity.actualUrl| <= ActualUrlMaxLength
      && entity.urlKey !in rows
    ensures r.0.Ok? ==> r.0.created == entity && r.1 == rows[entity.urlKey := entity.actualUrl]
    ensures !r.0.Ok? ==> r.1 == rows
    ensures response.Throws? ==> r.0 == Raised(response.error)
    ensures response.Responds? ==>
      && (r.0.Duplicate? <==>
            && (deadline.Some? ==> response.elapsedMilliseconds <= deadline.value)
            && |entity.actualUrl| <= ActualUrlMaxLength
            && entity.urlKey in rows)
      && (r.0.Duplicate? ==> r.0.key == entity.urlKey)
      && (r.0.TimedOut? <==> deadline.Some? && response.elapsedMilliseconds > deadline.value)
      && (r.0.Other? ==> r.0.error == ValueTooLong)
  {
    match response
    case Throws(e) => (Raised(e), rows)
    case Responds(elapsed) =>
      if deadline.Some? && elapsed > deadline.value then (TimedOut, rows)
      else if |entity.actualUrl| > ActualUrlMaxLength then (Other(ValueTooLong), rows)
      else if entity.urlKey in rows then (Duplicate(entity.urlKey), rows)
      else (Ok(entity), rows[entity.urlKey := entity.actualUrl])
  }

  /** One `GetAsync(key)`: the stored row for `key`, None when there is
      none, or the exception the database raised. */
  function Read(rows: Rows, key: string, response: Response): (r: Result<Option<ShortenedUrl>, Error>)
    ensures r.Success? <==> response.Responds?
    ensures r.Success? ==> (r.value.Some? <==> key in rows)
    ensures r.Success? && r.value.Some? ==> r.value.value == ShortenedUrl(key, rows[key])
    ensures r.Failure? ==> r.error == response.error
  {
    match response
    case Throws(e) => Failure(e)
    case Responds(_) => Success(if key in rows then Some(ShortenedUrl(key, rows[key])) else None)
  }

  /** The repository: the table plus the scripts of the database's answers
      to the n-th `CreateAsync` and the n-th `GetAsync`, and how many of each
      have been made (what the unit tests count with their mocks). */
  class Repository {
    var rows: Rows
    var createCalls: nat
    var getCalls: nat
    const createResponses: nat -> Response
    const getResponses: nat -> Response

    constructor (rows: Rows, createResponses: nat -> Response, getResponses: nat -> Response)
      ensures this.rows == rows && createCalls == 0 && getCalls == 0
      ensures this.createResponses == createResponses && this.getResponses == getResponses
    {
      this.rows := rows;
      this.createResponses := createResponses;
      this.getResponses := getResponses;
      createCalls, getCalls := 0, 0;
    }

    /** `CreateAsync(entity, token)`, the token cancelling after `deadline`
        milliseconds. */
    method Create(entity: ShortenedUrl, deadline: Option<nat>) returns (outcome: Outcome)
      modifies this
      ensures (outcome, rows) == Insert(old(rows), entity, createResponses(old(createCalls)), deadline)
      ensures createCalls == old(createCalls) + 1 && getCalls == old(getCalls)
    {
      var step := Insert(rows, entity, createResponses(createCalls), deadline);
      outcome, rows := step.0, step.1;
      createCalls := createCalls + 1;
    }

    /** `GetAsync(key)`. */
    method Get(key: string) returns (r: Result<Option<ShortenedUrl>, Error>)
      modifies this
      ensures r == Read(rows, key, getResponses(old(getCalls)))
      ensures rows == old(rows) && createCalls == old(createCalls) && getCalls == old(getCalls) + 1
    {
      r := Read(rows, key, getResponses(getCalls));
      getCalls := getCalls + 1;
    }
  }
}
