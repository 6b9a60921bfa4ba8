/** The authenticated request builder: the two headers every issuance
    request carries. */
module Headers {
  import opened Types

  /** Header name to header value; names are the lower-case forms the
      HTTP library uses. */
  type HeaderMap = map<string, string>

  const ContentType: string := "content-type"
  const Authorization: string := "authorization"
  const ApplicationJson: string := "application/json"
  /** The Bearer scheme of section 2.1 of RFC 6750. */
  const BearerPrefix: string := "Bearer "

  /** A character allowed in a header field value (section 5.5 of RFC 9110):
      horizontal tab, space, visible ASCII and anything beyond ASCII; no
      other control character and no DEL. */
  predicate FieldValueChar(c: char) {
    c == '\t' || (32 <= c as int && c as int != 127)
  }

  predicate ValidHeaderValue(s: string) {
    forall i :: 0 <= i < |s| ==> FieldValueChar(s[i])
  }

  /** The headers for a credential, or the error when the credential
      cannot be carried in a header. */
  function Header(token: string): Result<HeaderMap> {
    if ValidHeaderValue(BearerPrefix + token) then
      Ok(map[ContentType := ApplicationJson, Authorization := BearerPrefix + token])
    else
      Err(InvalidHeaderValue)
  }

  /** Builds the header map entry by entry, as the tool does: content type
      first, then the authorization value once it has been accepted. */
  method CreateHeader(token: string) returns (r: Result<HeaderMap>)
    ensures r == Header(token)
  {
    var headers: HeaderMap := map[];
    var bearerToken := BearerPrefix + token;
    headers := headers[ContentType := ApplicationJson];
    if !ValidHeaderValue(bearerToken) {
      return Err(InvalidHeaderValue);
    }
    headers := headers[Authorization := bearerToken];
    r := Ok(headers);
  }

  /** The scheme prefix never makes a value illegal: "Bearer <token>" is a
      legal value exactly when the token is. */
  lemma BearerValueValid(token: string)
    ensures ValidHeaderValue(BearerPrefix + token) <==> ValidHeaderValue(token)
  {
    var v := BearerPrefix + token;
    if ValidHeaderValue(v) {
      forall i | 0 <= i < |token| ensures FieldValueChar(token[i]) {
        assert token[i] == v[|BearerPrefix| + i];
      }
    }
    if ValidHeaderValue(token) {
      forall i | 0 <= i < |v| ensures FieldValueChar(v[i]) {
        if i >= |BearerPrefix| {
          assert v[i] == token[i - |BearerPrefix|];
        }
      }
    }
  }

  /** Building the headers fails only for a credential that is not a legal
      header value; otherwise there are exactly the two entries. */
  lemma HeaderContents(token: string)
    ensures Header(token).Ok? <==> ValidHeaderValue(token)
    ensures Header(token).Err? ==> Header(token).error == InvalidHeaderValue
    ensures Header(token).Ok? ==>
              var h := Header(token).value;
              && h.Keys == {ContentType, Authorization}
              && |h| == 2
              && h[ContentType] == ApplicationJson
              && h[Authorization] == BearerPrefix + token
  {
    BearerValueValid(token);
    var h := map[ContentType := ApplicationJson, Authorization := BearerPrefix + token];
    assert ContentType != Authorization by { assert ContentType[0] != Authorization[0]; }
    assert h.Keys == {ContentType, Authorization};
  }

  /** A credential with a control character other than tab in it (a newline,
      say) or a DEL is refused. */
  lemma ControlCharacterRefused(token: string, i: nat)
    requires i < |token| && ((token[i] as int < 32 && token[i] != '\t') || token[i] as int == 127)
    ensures Header(token) == Err(InvalidHeaderValue)
  {
    BearerValueValid(token);
  }

  /** The constant content type is itself a legal value. */
  lemma ApplicationJsonValid()
    ensures ValidHeaderValue(ApplicationJson)
  {
  }

  /** The credential "abc123" gives "Bearer abc123"; one with a newline fails. */
  lemma HeaderExamples()
    ensures Header("abc123").Ok?
    ensures Header("abc123").value[Authorization] == "Bearer abc123"
    ensures Header("abc123").value[ContentType] == "application/json"
    ensures Header("abc\n123") == Err(InvalidHeaderValue)
  {
    HeaderContents("abc123");
    ControlCharacterRefused("abc\n123", 3);
  }
}
