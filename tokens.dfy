/** Values shared by the credential and its options: tokens, the refresher
    handle, what a call of the refresher yields, and the error taxonomy. */
module Tokens {

  /** A Java reference that may be null: `None` stands for null. */
  datatype Option<+T> = None | Some(value: T)

  /** Why an operation failed. Every Java exception the core raises or lets
      escape has a constructor here. */
  datatype Error =
    | TokenNull               // `new CommunicationTokenCredential(null)`
    | RefresherNull           // options whose token refresher is null
    | ParseFailed             // the token parser rejected a serialized token
    | CredentialClosed        // getToken on a closed credential
    | RefresherReturnedNull   // the refresher's get() returned null
    | RefreshFailed           // the refresher's Mono completed with an error
    | NoTokenAvailable        // Mono.just(null): no token and no refresher
    | ScheduleFailed          // Timer.schedule refused a fire time before the epoch

  /** Success with a value, or one of the errors above. */
  datatype Result<+T> = Ok(value: T) | Err(error: Error)

  /** The access token: the bearer string and the instant it expires, in
      whole minutes since the Unix epoch, on the same clock as `now` below. */
  datatype Token = Token(value: string, expiresAt: int)

  /** A token is expired once the clock has passed its expiry instant. */
  predicate IsExpired(t: Token, now: int)
  {
    now > t.expiresAt
  }

  /** Identifies the caller's token refresher (a `Supplier<Mono<String>>`).
      What it yields on a given call is not a property of the handle: each
      operation that calls it receives that yield as a `RefreshOutcome`. */
  datatype Refresher = Refresher(handle: nat)

  /** What one call of the refresher produced: `get()` returned null, or a
      Mono that failed, or a Mono that emitted a serialized token. */
  datatype RefreshOutcome =
    | ReturnedNull
    | Failed
    | Emitted(serialized: string)

  /** The token parser: turns a serialized token into a Token, or rejects it. */
  type Parser = string -> Option<Token>
}
