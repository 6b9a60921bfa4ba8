/** Value types of the PAT issuance tool: the fixed-width integers the
    records use, the outcome wrappers, the error taxonomy and the three
    JSON records exchanged with the token endpoint. */
module Types {

  /** Rust's `i32`: the lifetime is handed through at this width. */
  newtype i32 = x: int | -0x8000_0000 <= x < 0x8000_0000

  /** Rust's `u64`: the epoch-second timestamps of a token. */
  newtype u64 = x: int | 0 <= x < 0x1_0000_0000_0000_0000

  datatype Option<+T> = None | Some(value: T)

  /** An HTTP status code as the http crate keeps it: a three-digit number. */
  type StatusCode = s: int | 100 <= s <= 999 witness 200

  /** The failures that reach the caller. Each variant is raised by exactly
      one stage, so the variant tells which stage failed. */
  datatype Error =
    | CredentialUnavailable(detail: string)  // the identity provider gave no token
    | InvalidHeaderValue                     // "Bearer <token>" is not a legal header value
    | Transport(detail: string)              // the POST could not be sent or answered
    | Rejected(status: StatusCode)           // the endpoint answered with a non-success status
    | Undecodable                            // a success body that is not a token response

  datatype Result<+T> = Ok(value: T) | Err(error: Error)

  /** What a collaborator outside the tool (the identity provider, the HTTP
      transport) hands back: a value, or a description of its failure. */
  datatype Attempt<+T> = Done(value: T) | Failed(detail: string)

  /** Request body: `{"comment": …, "lifetime_seconds": …}`. */
  datatype DbxRequestBody = DbxRequestBody(comment: string, lifetimeSeconds: i32)

  /** Metadata the endpoint returns about the token it minted. */
  datatype DbxTokenInfo = DbxTokenInfo(tokenId: string, creationTime: u64, expiryTime: u64, comment: string)

  /** Response body: the secret and its metadata. */
  datatype DbxTokenResponse = DbxTokenResponse(tokenValue: string, tokenInfo: DbxTokenInfo)
}
