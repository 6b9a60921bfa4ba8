/** The endpoint normaliser: turns a workspace URL as the operator typed it
    into the token-creation endpoint of that workspace. */
module Endpoint {

  const Scheme: string := "https://"
  const TokenCreatePath: string := "/api/2.0/token/create"

  predicate StartsWith(s: string, prefix: string) {
    |prefix| <= |s| && s[..|prefix|] == prefix
  }

  predicate EndsWith(s: string, suffix: string) {
    |suffix| <= |s| && s[|s| - |suffix|..] == suffix
  }

  /** The input with one trailing '/' removed, if it ends with one. */
  function StripTrailingSlash(url: string): string {
    if EndsWith(url, "/") then url[..|url| - 1] else url
  }

  /** The endpoint for `url`: one trailing '/' dropped, "https://" put in
      front unless already there (case-sensitive), the token path appended. */
  function TokenUrl(url: string): string {
    var s := StripTrailingSlash(url);
    (if StartsWith(s, Scheme) then s else Scheme + s) + TokenCreatePath
  }

  /** The segment between scheme and path: the input with at most one
      trailing '/' and then at most one leading "https://" removed. */
  function Workspace(url: string): string {
    var s := StripTrailingSlash(url);
    if StartsWith(s, Scheme) then s[|Scheme|..] else s
  }

  /** The normaliser as the tool runs it: one string variable that is
      reassigned and then extended in place. It cannot fail. */
  method GetDbxTokenUrl(url: string) returns (newUrl: string)
    ensures newUrl == TokenUrl(url)
  {
    if EndsWith(url, "/") {
      newUrl := url[..|url| - 1];
    } else {
      newUrl := url;
    }
    if !StartsWith(newUrl, Scheme) {
      newUrl := Scheme + newUrl;
    }
    newUrl := newUrl + TokenCreatePath;
  }

  /** Every endpoint is scheme, workspace and path, each exactly once. */
  lemma TokenUrlShape(url: string)
    ensures TokenUrl(url) == Scheme + Workspace(url) + TokenCreatePath
    ensures StartsWith(TokenUrl(url), Scheme)
    ensures EndsWith(TokenUrl(url), TokenCreatePath)
    ensures |TokenUrl(url)| == |Scheme| + |Workspace(url)| + |TokenCreatePath|
  {
  }

  /** The scheme is added exactly when the stripped input lacks it. */
  lemma SchemeAddedOnlyWhenMissing(url: string)
    ensures StartsWith(StripTrailingSlash(url), Scheme) ==>
              TokenUrl(url) == StripTrailingSlash(url) + TokenCreatePath
    ensures !StartsWith(StripTrailingSlash(url), Scheme) ==>
              TokenUrl(url) == Scheme + StripTrailingSlash(url) + TokenCreatePath
  {
  }

  /** A bare host gets exactly one scheme and exactly one path. */
  lemma BareHost(u: string)
    requires !EndsWith(u, "/") && !StartsWith(u, Scheme)
    ensures TokenUrl(u) == Scheme + u + TokenCreatePath
  {
  }

  /** A URL that already carries the scheme only gets the path. */
  lemma SchemedHost(h: string)
    requires !EndsWith(Scheme + h, "/")
    ensures TokenUrl(Scheme + h) == Scheme + h + TokenCreatePath
  {
  }

  /** Only one trailing slash is removed: the second one stays in the workspace. */
  lemma OneSlashStripped(u: string)
    requires StartsWith(u, Scheme) || !StartsWith(u + "/", Scheme)
    ensures Workspace(u + "//") == Workspace(u + "/") + "/"
  {
  }

  /** The host alone, with the scheme, and with scheme and trailing slash
      all name the same endpoint. */
  lemma SpellingsAgree(h: string)
    requires h != [] && !EndsWith(h, "/") && !StartsWith(h, Scheme)
    ensures TokenUrl(h) == TokenUrl(Scheme + h) == TokenUrl(Scheme + h + "/") == TokenUrl(h + "/")
  {
  }

  /** Normalising the endpoint with its path cut off gives the endpoint
      back exactly when that base does not end in '/'. */
  lemma RenormalisingBase(url: string)
    ensures TokenUrl(Scheme + Workspace(url)) == TokenUrl(url) <==> !EndsWith(Scheme + Workspace(url), "/")
  {
  }

  /** An empty input and a lone '/' both leave the workspace empty. */
  lemma EmptyInputs()
    ensures TokenUrl("") == "https:///api/2.0/token/create"
    ensures TokenUrl("/") == "https:///api/2.0/token/create"
  {
  }

  /** "h//" loses one slash, not two. */
  lemma DoubleSlashInput()
    ensures TokenUrl("h//") == "https://h//api/2.0/token/create"
  {
  }

  /** "https://" loses its last slash first and then no longer carries the
      scheme, so the scheme is put in front of what is left. */
  lemma SchemeOnlyInput()
    ensures TokenUrl("https://") == "https://https://api/2.0/token/create"
  {
  }

  /** A plain-HTTP URL is not recognised as carrying the scheme. */
  lemma PlainHttpInput()
    ensures TokenUrl("http://h") == "https://http://h/api/2.0/token/create"
  {
    assert StripTrailingSlash("http://h") == "http://h";
    assert "http://h"[..|Scheme|][4] != Scheme[4];
  }

  /** The scheme test is case-sensitive. */
  lemma UpperCaseSchemeInput()
    ensures TokenUrl("HTTPS://h") == "https://HTTPS://h/api/2.0/token/create"
  {
    assert StripTrailingSlash("HTTPS://h") == "HTTPS://h";
    assert "HTTPS://h"[..|Scheme|][0] != Scheme[0];
  }

  /** The three spellings of one workspace give one endpoint. */
  lemma FooNetSpellings()
    ensures TokenUrl("foo.net") == "https://foo.net/api/2.0/token/create"
    ensures TokenUrl("https://foo.net") == TokenUrl("foo.net")
    ensures TokenUrl("https://foo.net/") == TokenUrl("foo.net")
  {
    var h := "foo.net";
    assert !EndsWith(h, "/") by { assert h[|h| - 1..] == "t"; }
    assert TokenUrl(h) == "https://foo.net/api/2.0/token/create" by {
      BareHost(h);
      assert Scheme + h + TokenCreatePath == "https://foo.net/api/2.0/token/create";
    }
    SpellingsAgree(h);
    assert Scheme + h == "https://foo.net";
    assert Scheme + h + "/" == "https://foo.net/";
  }
}
