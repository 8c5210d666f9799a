/** Entities, limits, options and failures of the URL shortener's domain. */
module Domain {

  /** `Limits.ShortUrlKeyLength`: every short key has this many characters. */
  const ShortUrlKeyLength: nat := 6

  /** `Limits.ActualUrlMaxLength`: width of the store's URL column. */
  const ActualUrlMaxLength: nat := 2000

  /** `HashBasedUrlShortenerOptions`: how many extra attempts a key conflict
      may cause, and the time one attempt may take. */
  datatype Options = Options(retryCount: nat, timeoutSeconds: nat) {
    /** The per-attempt time limit in milliseconds. */
    function TimeoutMilliseconds(): nat {
      timeoutSeconds * 1000
    }
  }

  /** The option values used when the configuration sets none. */
  const DefaultOptions: Options := Options(3, 2)

  /** The entity `ShortenedUrl(UrlKey, ActualUrl)`: a short key and the URL
      it stands for. */
  datatype ShortenedUrl = ShortenedUrl(urlKey: string, actualUrl: string)

  /** The failures the shortener can raise or let through. Each constructor
      stands for one .NET exception type. */
  datatype Error =
      /** `ArgumentException` for a null, empty or white-space parameter */
    | Argument(paramName: string)
      /** `ArgumentOutOfRangeException` */
    | ArgumentOutOfRange(paramName: string)
      /** `DuplicateShortUrlKeyException`: the key is already stored */
    | DuplicateShortUrlKey(shortUrlKey: string)
      /** Polly's `TimeoutRejectedException`: an attempt ran out of time */
    | TimeoutRejected
      /** `CantCreateShortenedUrlException(url, innerException)` */
    | CantCreateShortenedUrl(url: string, inner: Error)
      /** `ShortenedUrlNotFoundException` */
    | ShortenedUrlNotFound(shortUrlKey: string)
      /** any other exception raised by the store, named by its description */
    | StoreFailure(description: string)
}
