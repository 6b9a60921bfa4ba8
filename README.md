# az-dbx-pat, modelled in Dafny

`az-dbx-pat` is a small command-line tool. It issues an Azure Databricks
personal access token (PAT). First it obtains a bearer token for the Azure
Databricks application from Azure identity. Then it posts to the workspace's
token-creation endpoint with that bearer token. Finally it hands back the
secret from the response.

This project models the core of that tool, in `src/main.rs`:

- `types.dfy` (module `Types`): the three JSON records (`DbxRequestBody`,
  `DbxTokenInfo`, `DbxTokenResponse`). It also holds Rust's `i32` and `u64`
  as newtypes, the `Result`/`Option` wrappers, the errors that reach the
  caller, and `Attempt`, the value-or-failure-description that the identity
  provider and the transport hand back.
- `endpoint.dfy` (module `Endpoint`): the endpoint normaliser
  `get_dbx_token_url`. `GetDbxTokenUrl` is an imperative method on one
  mutable string, as in the source. `TokenUrl` is the same computation as a
  function, which the pipeline and the lemmas use.
- `headers.dfy` (module `Headers`): `create_header`. The method
  `CreateHeader` fills a local header map entry by entry. The function
  `Header` specifies it.
- `issuance.dfy` (module `Issuance`): `get_pat`. It covers the single POST
  and how its status and body are classified. It also covers the message
  the tool reports for a non-success status.
- `pipeline.dfy` (module `Pipeline`): `generate_dbx_pat`. The identity
  provider and the HTTP transport are function parameters. A run records
  the outward calls it made, so that "a failure prevents later stages" is a
  statement about the run.

The Rust `HeaderMap` is created inside `create_header` and then moved to its
caller, so no one else holds it. It is therefore modelled as a value: a
`map` from lower-case header names to values.

Two choices follow the source directly:

- The identity provider and the transport only hand back a value or a
  description of their failure. `GetAzureToken` reports such a failure as
  `CredentialUnavailable` and `GetPat` reports it as `Transport`. Every
  other error passes through to the caller unchanged, as the `?`
  operators at src/main.rs:99-102 pass it. The source's errors are all
  `Box<dyn Error>`; in the model each `Error` variant is raised by exactly
  one stage, so the variant names the stage that failed
  (`Pipeline.ErrorNamesFailingStage`).
- `TokenUrl` accepts every string, including `""`.

## Model

| member | source | states |
|---|---|---|
| `Endpoint.GetDbxTokenUrl` | src/main.rs:30-47 | Building the string in place (drop one trailing `/`, prepend `https://` when missing, append the path) yields exactly `TokenUrl(url)`. The method has no precondition: it never fails, for any input. |
| `Endpoint.TokenUrlShape` | src/main.rs:30-47 | Every endpoint is `https://` + workspace + `/api/2.0/token/create`. So it starts with the scheme, ends with the token path, and its length is the sum of the three parts. |
| `Endpoint.SchemeAddedOnlyWhenMissing` | src/main.rs:38-41 | The scheme is prepended exactly when the slash-stripped input does not already start with `https://`. Otherwise the stripped input is kept as it is. |
| `Endpoint.BareHost` | src/main.rs:30-47 | An input with no trailing `/` and no `https://` prefix gives `"https://" + u + "/api/2.0/token/create"`: one scheme and one path. |
| `Endpoint.SchemedHost` | src/main.rs:38-44 | An input `"https://" + h` with no trailing `/` only gets the path appended. The scheme is not doubled. |
| `Endpoint.OneSlashStripped` | src/main.rs:31-36 | Only one trailing slash is removed. For `u + "//"`, the workspace keeps the second slash: it is the workspace of `u + "/"` followed by `/`. The one input excluded is `u == "https:/"`, where stripping the slash is what creates the scheme. |
| `Endpoint.SpellingsAgree` | src/main.rs:30-47 | For a non-empty bare host `h`, the inputs `h`, `h/`, `https://h` and `https://h/` all give the same endpoint. |
| `Endpoint.RenormalisingBase` | src/main.rs:30-47 | Cut the path off an endpoint and normalise what is left. The endpoint comes back exactly when that base does not end in `/`. Both directions are proved. |
| `Endpoint.EmptyInputs` | src/main.rs:30-47 | `""` and `"/"` both give `https:///api/2.0/token/create`. There is no failure. |
| `Endpoint.DoubleSlashInput` | src/main.rs:31-36 | `"h//"` gives `https://h/` followed by the path: only one slash is stripped. |
| `Endpoint.SchemeOnlyInput` | src/main.rs:31-41 | `"https://"` loses its last slash before the scheme test. The scheme test then fails, so the result is `https://https://api/2.0/token/create`. |
| `Endpoint.PlainHttpInput` | src/main.rs:38-41 | `"http://h"` is not taken to carry the scheme: `https://` is put in front of it. |
| `Endpoint.UpperCaseSchemeInput` | src/main.rs:38-41 | The scheme test is case-sensitive: `"HTTPS://h"` gets `https://` put in front of it. |
| `Endpoint.FooNetSpellings` | src/main.rs:30-47 | `foo.net`, `https://foo.net` and `https://foo.net/` all give `https://foo.net/api/2.0/token/create`. |
| `Headers.CreateHeader` | src/main.rs:50-56 | Inserting the content type and then the authorization value into a map gives exactly `Header(token)`. Building fails before the second insert when the Bearer value is refused. |
| `Headers.BearerValueValid` | src/main.rs:52-54 | `"Bearer " + token` is a legal header value exactly when `token` is. |
| `Headers.HeaderContents` | src/main.rs:50-56 | Building the headers fails exactly when the credential is not a legal header value, and the error is then `InvalidHeaderValue`. On success the map has exactly two entries: `content-type: application/json` and `authorization: Bearer <token>`. |
| `Headers.ControlCharacterRefused` | src/main.rs:54 | A credential that holds a control character other than tab (a newline, say) or a DEL is refused with `InvalidHeaderValue`. |
| `Headers.ApplicationJsonValid` | src/main.rs:53 | The fixed content-type value is itself a legal header value. |
| `Headers.HeaderExamples` | src/main.rs:50-56 | `"abc123"` gives `Bearer abc123` and `application/json`. `"abc\n123"` fails. |
| `Issuance.GetPat` | src/main.rs:73-89 | Succeeds exactly when the transport answered with a 2xx status and a body that decodes, and then yields that decoded body. A transport failure becomes `Transport` with its description. A success status with an undecodable body is `Undecodable`. Any other status is `Rejected(status)`. |
| `Issuance.BodyIgnoredOnFailure` | src/main.rs:81-88 | For a non-success status, the outcome is `Rejected(status)` whatever the body holds: two bodies give the same outcome. |
| `Issuance.RejectionMessageNamesStatus` | src/main.rs:85 | The message is `Failed to get PAT: HTTP ` followed by three characters, each a decimal digit, and those digits read back as the status. |
| `Issuance.RejectionMessagesDiffer` | src/main.rs:85 | Two different statuses never give the same message. |
| `Pipeline.CredentialAcquiredFirst` | src/main.rs:92-104 | Every run first asks the identity provider for the Azure Databricks scope. It makes at most one further call, and that call is the token request. |
| `Pipeline.IssuedIffEarlierStagesSucceed` | src/main.rs:99-102 | The token endpoint is called exactly when a credential was obtained and that credential is a legal header value. |
| `Pipeline.CredentialFailureShortCircuits` | src/main.rs:99 | When credential acquisition fails, the run ends with `CredentialUnavailable` carrying the provider's description, and makes only the identity call. The token endpoint is never called. |
| `Pipeline.HeaderFailureShortCircuits` | src/main.rs:100 | When header building fails, the run ends with `InvalidHeaderValue` and the token endpoint is never called. |
| `Pipeline.IssuedRequestContents` | src/main.rs:93-102 | When issued, the request goes to `https://` + workspace + path and carries the two headers. The body holds the comment `Generate Azure Databricks PAT` and the caller's lifetime, unchanged. It is sent once. |
| `Pipeline.SuccessYieldsTokenValue` | src/main.rs:92-104 | The run succeeds exactly when every stage does. It then yields the `token_value` of the decoded response and nothing else of it. |
| `Pipeline.IssuanceErrorsPropagate` | src/main.rs:102 | Issuance errors reach the caller: a transport failure as `Transport` with its description, a non-success status as `Rejected(status)`, an undecodable body as `Undecodable`. |
| `Pipeline.ErrorNamesFailingStage` | src/main.rs:92-104 | The error a run ends with names the failing stage. `CredentialUnavailable` means the identity provider failed. `InvalidHeaderValue` means it gave a token that cannot be a header value. `Transport`, `Rejected` and `Undecodable` mean the POST was made and its answer failed in that way. Each is proved in both directions. |
| `Pipeline.RejectedRunNamesStatus` | src/main.rs:85-88 | When a run ends in `Rejected(status)`, the message of that error is `Failed to get PAT: HTTP ` followed by three characters, each a decimal digit, that read back as the status. |
| `Pipeline.ScenarioUrl` | src/main.rs:93 | `adb-123.azuredatabricks.net` is a bare host: its endpoint is the scheme, the host and the path. |
| `Pipeline.ScenarioIssued` | src/main.rs:92-104 | Credential `tok-xyz` and a 200 answer with a token give `dapiSECRET`. The run posts once to the workspace endpoint with `Bearer tok-xyz`. |
| `Pipeline.ScenarioRejected` | src/main.rs:81-88 | The same run answered with 403 ends in `Rejected(403)`, with no secret. |
| `Pipeline.ScenarioNoCredential` | src/main.rs:99 | When the identity provider fails, the run ends with its error and never reaches the token endpoint. |

## Left out

- The command line (`main`, src/main.rs:107-159) is not modelled: argument parsing, help text, the `test` subcommand, the default lifetime of 3600 and the exit codes. It is user interface and process plumbing.
- Credential discovery inside `get_azure_token` (src/main.rs:59-70) is not modelled. It belongs to the `azure_identity` crate. The identity provider is a parameter that returns `Done(token)` or `Failed(detail)` for the requested scopes, and `GetAzureToken` reports a failure as `CredentialUnavailable(detail)`. The panic of `unwrap` on credential creation (line 60) is not modelled, because that crate's code is not part of this model.
- The HTTP client, `send`, TLS and DNS (src/main.rs:74-79) are a `transport` parameter. A transport failure is its `Failed(detail)`, which `GetPat` reports as `Transport(detail)`. The JSON encoding of the body is not modelled: the request carries the `DbxRequestBody` value.
- JSON decoding of the response (src/main.rs:82) is not modelled, because it is a foreign library. The transport hands over `Some(response)` when the body decodes and `None` when it does not. A failure while reading the body is folded into `None`.
- ValidHeaderValue: the HTTP library's own header-value check is not part of this model. The predicate uses the character classes of section 5.5 of RFC 9110: tab, space, visible characters and non-ASCII characters are allowed; other control characters and DEL are not. It does not reject leading or trailing whitespace.
- `HeaderMap` is a map from header name to one value. Multiple values per name and case-insensitive lookup are not modelled; the model always uses the lower-case names.
- Error texts other than the rejection message are not the tool's own. `Message` gives the collaborator's description for credential and transport failures and a fixed text for the header and decoding errors, whose real wording belongs to the HTTP and JSON libraries.
- Logging with `eprintln!` and the async runtime are not modelled. Neither changes what a call returns.
- The `u64` timestamps in `DbxTokenInfo` are carried through, never examined, just as in the source. The `i32` lifetime is passed to the request body without any range check, just as in the source.
