/** The issuance client: one POST to the token endpoint and the
    interpretation of its answer. */
module Issuance {
  import opened Types
  import opened Headers

  /** What goes out: URL, headers and the JSON body. */
  datatype IssueRequest = IssueRequest(url: string, headers: HeaderMap, body: DbxRequestBody)

  /** What comes back: the status, and the body read as a token response
      (`None` when it does not decode as one). */
  datatype Response = Response(status: StatusCode, body: Option<DbxTokenResponse>)

  /** The 2xx range. */
  predicate IsSuccess(status: StatusCode) {
    200 <= status <= 299
  }

  /** Sends the request through `transport` and classifies the answer: a
      transport failure becomes `Transport`; a success status hands over the decoded
      body or fails to decode; any other status is an error with that status,
      whatever the body holds. */
  function GetPat(request: IssueRequest, transport: IssueRequest -> Attempt<Response>): (r: Result<DbxTokenResponse>)
    ensures r.Ok? <==>
              transport(request).Done? && IsSuccess(transport(request).value.status)
              && transport(request).value.body.Some?
    ensures r.Ok? ==> r.value == transport(request).value.body.value
    ensures transport(request).Failed? ==> r == Err(Transport(transport(request).detail))
    ensures transport(request).Done? && !IsSuccess(transport(request).value.status) ==>
              r == Err(Rejected(transport(request).value.status))
    ensures (transport(request).Done? && IsSuccess(transport(request).value.status) &&
             transport(request).value.body.None?) ==> r == Err(Undecodable)
  {
    match transport(request)
    case Failed(detail) => Err(Transport(detail))
    case Done(resp) =>
      if IsSuccess(resp.status) then
        match resp.body
        case Some(tokenResponse) => Ok(tokenResponse)
        case None => Err(Undecodable)
      else
        Err(Rejected(resp.status))
  }

  /** On a non-success status the body is never looked at. */
  lemma BodyIgnoredOnFailure(request: IssueRequest, status: StatusCode, b1: Option<DbxTokenResponse>, b2: Option<DbxTokenResponse>)
    requires !IsSuccess(status)
    ensures GetPat(request, _ => Done(Response(status, b1))) == GetPat(request, _ => Done(Response(status, b2)))
    ensures GetPat(request, _ => Done(Response(status, b1))) == Err(Rejected(status))
  {
  }

  const RejectionPrefix: string := "Failed to get PAT: HTTP "

  /** One decimal digit. */
  function Digit(d: int): char
    requires 0 <= d <= 9
  {
    "0123456789"[d]
  }

  /** The value of a decimal digit character. */
  function DigitValue(c: char): int {
    if '0' <= c <= '9' then c as int - '0' as int else 0
  }

  /** A status code written out as its three decimal digits. */
  function StatusText(status: StatusCode): (t: string)
    ensures |t| == 3
  {
    [Digit(status / 100), Digit(status / 10 % 10), Digit(status % 10)]
  }

  /** Reads three decimal digits back as a number. */
  function ParseStatusText(t: string): int
    requires |t| == 3
  {
    100 * DigitValue(t[0]) + 10 * DigitValue(t[1]) + DigitValue(t[2])
  }

  /** The message the tool reports for a non-success status. */
  function RejectionMessage(status: StatusCode): string {
    RejectionPrefix + StatusText(status)
  }

  /** The text an error reports. Only the rejection text is the tool's
      own; the others are the collaborator's description or a fixed text
      standing for a library's. */
  function Message(e: Error): string {
    match e
    case CredentialUnavailable(detail) => detail
    case InvalidHeaderValue => "invalid header value"
    case Transport(detail) => detail
    case Rejected(status) => RejectionMessage(status)
    case Undecodable => "response body is not a token response"
  }

  /** The message names the status: its tail reads back as that status, so
      two different statuses never give the same message. */
  lemma RejectionMessageNamesStatus(status: StatusCode)
    ensures |RejectionMessage(status)| == |RejectionPrefix| + 3
    ensures RejectionMessage(status)[..|RejectionPrefix|] == RejectionPrefix
    ensures forall i | |RejectionPrefix| <= i < |RejectionMessage(status)| :: '0' <= RejectionMessage(status)[i] <= '9'
    ensures ParseStatusText(RejectionMessage(status)[|RejectionPrefix|..]) == status
  {
    var m := RejectionMessage(status);
    assert m[|RejectionPrefix|..] == StatusText(status);
    forall d | 0 <= d <= 9 ensures DigitValue(Digit(d)) == d {
      assert "0123456789"[d] as int == '0' as int + d;
    }
    var hundreds, tens, ones := status / 100, status / 10 % 10, status % 10;
    assert status == 100 * hundreds + 10 * tens + ones;
  }

  lemma RejectionMessagesDiffer(s1: StatusCode, s2: StatusCode)
    requires s1 != s2
    ensures RejectionMessage(s1) != RejectionMessage(s2)
  {
    RejectionMessageNamesStatus(s1);
    RejectionMessageNamesStatus(s2);
  }
}
