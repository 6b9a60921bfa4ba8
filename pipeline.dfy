/** The pipeline: normalise the endpoint, build the body, obtain a bearer
    credential, build the headers, issue, and hand back only the secret.
    The identity provider and the HTTP transport are parameters; a run
    records the outward calls it made, so that what a failure prevents
    can be stated. */
module Pipeline {
  import opened Types
  import opened Endpoint
  import opened Headers
  import opened Issuance

  /** The application identifier of Azure Databricks, with the default scope. */
  const AzureDatabricksScope: string := "2ff814a6-3304-4ab8-85cb-cd0e6f879c1d/.default"
  const PatComment: string := "Generate Azure Databricks PAT"

  /** An outward call: to the identity provider, or to the token endpoint. */
  datatype Call = AcquireToken(scopes: seq<string>) | PostTokenCreate(request: IssueRequest)

  /** What the caller gets, and the outward calls made to get it. */
  datatype Run = Run(outcome: Result<string>, calls: seq<Call>)

  /** Asks the identity provider for a token for the fixed scope; a failure
      is reported as the credential being unavailable, with its description. */
  function GetAzureToken(identity: seq<string> -> Attempt<string>): Result<string> {
    match identity([AzureDatabricksScope])
    case Done(token) => Ok(token)
    case Failed(detail) => Err(CredentialUnavailable(detail))
  }

  /** The request body: the fixed comment and the caller's lifetime, unchecked. */
  function RequestBody(lifetime: i32): DbxRequestBody {
    DbxRequestBody(PatComment, lifetime)
  }

  /** Each stage's error ends the run; later stages are not reached. */
  function GenerateDbxPat(url: string, lifetime: i32,
                          identity: seq<string> -> Attempt<string>,
                          transport: IssueRequest -> Attempt<Response>): Run
  {
    var tokenUrl := TokenUrl(url);
    var body := RequestBody(lifetime);
    var acquired := [AcquireToken([AzureDatabricksScope])];
    match GetAzureToken(identity)
    case Err(e) => Run(Err(e), acquired)
    case Ok(azureToken) =>
      match Header(azureToken)
      case Err(e) => Run(Err(e), acquired)
      case Ok(header) =>
        var request := IssueRequest(tokenUrl, header, body);
        var calls := acquired + [PostTokenCreate(request)];
        match GetPat(request, transport)
        case Err(e) => Run(Err(e), calls)
        case Ok(tokenResponse) => Run(Ok(tokenResponse.tokenValue), calls)
  }

  /** Whether the run reached the token endpoint. */
  predicate Issued(run: Run) {
    exists i :: 0 <= i < |run.calls| && run.calls[i].PostTokenCreate?
  }

  /** The request the pipeline sends for a workspace, lifetime and credential. */
  function IssueRequestFor(url: string, lifetime: i32, token: string): IssueRequest
    requires ValidHeaderValue(token)
  {
    HeaderContents(token);
    IssueRequest(TokenUrl(url), Header(token).value, RequestBody(lifetime))
  }

  /** The credential is always asked for first, and nothing is called twice. */
  lemma CredentialAcquiredFirst(url: string, lifetime: i32,
                                identity: seq<string> -> Attempt<string>,
                                transport: IssueRequest -> Attempt<Response>)
    ensures var run := GenerateDbxPat(url, lifetime, identity, transport);
            && 1 <= |run.calls| <= 2
            && run.calls[0] == AcquireToken([AzureDatabricksScope])
            && (|run.calls| == 2 ==> run.calls[1].PostTokenCreate?)
  {
  }

  /** The token endpoint is called exactly when a credential was obtained
      and it could be put in a header. */
  lemma IssuedIffEarlierStagesSucceed(url: string, lifetime: i32,
                                      identity: seq<string> -> Attempt<string>,
                                      transport: IssueRequest -> Attempt<Response>)
    ensures Issued(GenerateDbxPat(url, lifetime, identity, transport)) <==>
              identity([AzureDatabricksScope]).Done? && ValidHeaderValue(identity([AzureDatabricksScope]).value)
  {
    var run := GenerateDbxPat(url, lifetime, identity, transport);
    var credential := identity([AzureDatabricksScope]);
    if credential.Done? {
      HeaderContents(credential.value);
      if ValidHeaderValue(credential.value) {
        assert run.calls[1].PostTokenCreate?;
      }
    }
  }

  /** A failed credential acquisition ends the run with that error and no
      request to the token endpoint. */
  lemma CredentialFailureShortCircuits(url: string, lifetime: i32,
                                       identity: seq<string> -> Attempt<string>,
                                       transport: IssueRequest -> Attempt<Response>)
    requires identity([AzureDatabricksScope]).Failed?
    ensures GenerateDbxPat(url, lifetime, identity, transport) ==
              Run(Err(CredentialUnavailable(identity([AzureDatabricksScope]).detail)), [AcquireToken([AzureDatabricksScope])])
    ensures !Issued(GenerateDbxPat(url, lifetime, identity, transport))
  {
  }

  /** A credential that cannot be a header value ends the run before the
      token endpoint is called. */
  lemma HeaderFailureShortCircuits(url: string, lifetime: i32,
                                   identity: seq<string> -> Attempt<string>,
                                   transport: IssueRequest -> Attempt<Response>)
    requires identity([AzureDatabricksScope]).Done?
    requires !ValidHeaderValue(identity([AzureDatabricksScope]).value)
    ensures GenerateDbxPat(url, lifetime, identity, transport).outcome == Err(InvalidHeaderValue)
    ensures !Issued(GenerateDbxPat(url, lifetime, identity, transport))
  {
    HeaderContents(identity([AzureDatabricksScope]).value);
    IssuedIffEarlierStagesSucceed(url, lifetime, identity, transport);
  }

  /** When the token endpoint is called, it is called once, with the
      normalised URL, the two headers and the fixed comment with the
      caller's lifetime unchanged. */
  lemma IssuedRequestContents(url: string, lifetime: i32,
                              identity: seq<string> -> Attempt<string>,
                              transport: IssueRequest -> Attempt<Response>)
    requires identity([AzureDatabricksScope]).Done?
    requires ValidHeaderValue(identity([AzureDatabricksScope]).value)
    ensures var token := identity([AzureDatabricksScope]).value;
            var request := IssueRequestFor(url, lifetime, token);
            && GenerateDbxPat(url, lifetime, identity, transport).calls ==
                 [AcquireToken([AzureDatabricksScope]), PostTokenCreate(request)]
            && request.url == Scheme + Workspace(url) + TokenCreatePath
            && request.headers[Authorization] == BearerPrefix + token
            && request.headers[ContentType] == ApplicationJson
            && request.body == DbxRequestBody("Generate Azure Databricks PAT", lifetime)
  {
  }

  /** The run succeeds exactly when every stage does, and then yields the
      token value of the response and nothing else of it. */
  lemma SuccessYieldsTokenValue(url: string, lifetime: i32,
                                identity: seq<string> -> Attempt<string>,
                                transport: IssueRequest -> Attempt<Response>)
    ensures var run := GenerateDbxPat(url, lifetime, identity, transport);
            var credential := identity([AzureDatabricksScope]);
            run.outcome.Ok? <==>
              && credential.Done? && ValidHeaderValue(credential.value)
              && var sent := transport(IssueRequestFor(url, lifetime, credential.value));
                 sent.Done? && IsSuccess(sent.value.status) && sent.value.body.Some?
    ensures var run := GenerateDbxPat(url, lifetime, identity, transport);
            var credential := identity([AzureDatabricksScope]);
            run.outcome.Ok? ==>
              && credential.Done? && ValidHeaderValue(credential.value)
              && run.outcome.value ==
                   transport(IssueRequestFor(url, lifetime, credential.value)).value.body.value.tokenValue
  {
    var credential := identity([AzureDatabricksScope]);
    if credential.Done? {
      HeaderContents(credential.value);
    }
  }

  /** Errors of the issuance call reach the caller: a transport failure as
      `Transport` with its description, a non-success status as a rejection
      with that status, an undecodable body as `Undecodable`. */
  lemma IssuanceErrorsPropagate(url: string, lifetime: i32,
                                identity: seq<string> -> Attempt<string>,
                                transport: IssueRequest -> Attempt<Response>)
    requires identity([AzureDatabricksScope]).Done?
    requires ValidHeaderValue(identity([AzureDatabricksScope]).value)
    ensures var sent := transport(IssueRequestFor(url, lifetime, identity([AzureDatabricksScope]).value));
            var run := GenerateDbxPat(url, lifetime, identity, transport);
            && (sent.Failed? ==> run.outcome == Err(Transport(sent.detail)))
            && (sent.Done? && !IsSuccess(sent.value.status) ==> run.outcome == Err(Rejected(sent.value.status)))
            && (sent.Done? && IsSuccess(sent.value.status) && sent.value.body.None? ==> run.outcome == Err(Undecodable))
  {
  }

  /** The error a run ends with names the stage that failed: each variant
      arises from exactly one stage, never from a collaborator's say-so. */
  lemma ErrorNamesFailingStage(url: string, lifetime: i32,
                               identity: seq<string> -> Attempt<string>,
                               transport: IssueRequest -> Attempt<Response>)
    ensures var run := GenerateDbxPat(url, lifetime, identity, transport);
            var credential := identity([AzureDatabricksScope]);
            var posted := |run.calls| == 2 && run.calls[1].PostTokenCreate?;
            && (run.outcome.Err? && run.outcome.error.CredentialUnavailable? <==> credential.Failed?)
            && (run.outcome.Err? && run.outcome.error.InvalidHeaderValue? <==>
                  credential.Done? && !ValidHeaderValue(credential.value))
            && (run.outcome.Err? && run.outcome.error.Transport? <==>
                  posted && transport(run.calls[1].request).Failed?)
            && (run.outcome.Err? && run.outcome.error.Rejected? <==>
                  posted && transport(run.calls[1].request).Done? &&
                  !IsSuccess(transport(run.calls[1].request).value.status))
            && (run.outcome.Err? && run.outcome.error.Undecodable? <==>
                  posted && transport(run.calls[1].request).Done? &&
                  IsSuccess(transport(run.calls[1].request).value.status) &&
                  transport(run.calls[1].request).value.body.None?)
  {
    var credential := identity([AzureDatabricksScope]);
    if credential.Done? {
      HeaderContents(credential.value);
    }
  }

  /** A run that ends in a rejection reports a message naming that status. */
  lemma RejectedRunNamesStatus(url: string, lifetime: i32,
                               identity: seq<string> -> Attempt<string>,
                               transport: IssueRequest -> Attempt<Response>,
                               status: StatusCode)
    requires GenerateDbxPat(url, lifetime, identity, transport).outcome == Err(Rejected(status))
    ensures var m := Message(GenerateDbxPat(url, lifetime, identity, transport).outcome.error);
            && m[..|RejectionPrefix|] == RejectionPrefix
            && |m| == |RejectionPrefix| + 3
            && ParseStatusText(m[|RejectionPrefix|..]) == status
            && (forall i | |RejectionPrefix| <= i < |m| :: '0' <= m[i] <= '9')
  {
    RejectionMessageNamesStatus(status);
  }

  const ScenarioWorkspace: string := "adb-123.azuredatabricks.net"
  const ScenarioResponse: DbxTokenResponse :=
    DbxTokenResponse("dapiSECRET", DbxTokenInfo("1", 0, 3600, "x"))

  /** The scenario workspace is a bare host: it gets one scheme and one path. */
  lemma ScenarioUrl()
    ensures TokenUrl(ScenarioWorkspace) == Scheme + ScenarioWorkspace + TokenCreatePath
  {
    var h := ScenarioWorkspace;
    assert !EndsWith(h, "/") by { assert h[|h| - 1..] == "t"; }
    assert !StartsWith(h, Scheme) by { assert h[..|Scheme|][0] != Scheme[0]; }
    BareHost(h);
  }

  /** Credential "tok-xyz", endpoint answering 200 with a token: the run
      posts once to the workspace endpoint and yields the secret. */
  lemma ScenarioIssued()
    ensures var run := GenerateDbxPat(ScenarioWorkspace, 3600, _ => Done("tok-xyz"),
                                      _ => Done(Response(200, Some(ScenarioResponse))));
            && run.outcome == Ok("dapiSECRET")
            && |run.calls| == 2
            && run.calls[1].request.url == Scheme + ScenarioWorkspace + TokenCreatePath
            && run.calls[1].request.headers[Authorization] == "Bearer tok-xyz"
  {
    HeaderContents("tok-xyz");
    ScenarioUrl();
  }

  /** The same run answered with 403: the error carries 403 and no secret
      is yielded. */
  lemma ScenarioRejected()
    ensures GenerateDbxPat(ScenarioWorkspace, 3600, _ => Done("tok-xyz"),
                           _ => Done(Response(403, Some(ScenarioResponse)))).outcome == Err(Rejected(403))
  {
  }

  /** The identity provider fails: the token endpoint is never called. */
  lemma ScenarioNoCredential()
    ensures var run := GenerateDbxPat(ScenarioWorkspace, 3600, _ => Failed("no credential source"),
                                      _ => Done(Response(200, Some(ScenarioResponse))));
            && run.outcome == Err(CredentialUnavailable("no credential source"))
            && !Issued(run)
  {
  }
}
