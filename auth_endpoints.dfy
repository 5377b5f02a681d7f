/**
 * The open-redirect guard of the GitHub login endpoint: a return URL is kept
 * only when it is a local path or an absolute URL on one of the known front-end
 * origins; otherwise login falls back to the site root.
 */
module AuthEndpoints {
  import opened Wrappers
  import opened Text

  /** The parts of an absolute `System.Uri` that the guard reads. */
  datatype AbsoluteUri = AbsoluteUri(scheme: string, authority: string)

  /** The front-end origins a login may return to. */
  const SafeOrigins: seq<string> := ["http://localhost:5183", "https://localhost:5183"]

  /** `$"{uri.Scheme}://{uri.Authority}"`. */
  function Origin(uri: AbsoluteUri): string {
    uri.scheme + "://" + uri.authority
  }

  /** `safeOrigins.Contains(origin, StringComparer.OrdinalIgnoreCase)`. */
  predicate IsSafeOrigin(origin: string) {
    exists i :: 0 <= i < |SafeOrigins| && EqualsIgnoreCase(SafeOrigins[i], origin)
  }

  /** `returnUrl.StartsWith('/') && !returnUrl.StartsWith("//")`. */
  predicate IsLocalPath(url: string) {
    StartsWith(url, "/") && !StartsWith(url, "//")
  }

  /**
   * `ValidateReturnUrl`. `tryCreate` stands for `Uri.TryCreate(_, UriKind.Absolute, _)`:
   * `None` when the text is not an absolute URI.
   */
  function ValidateReturnUrl(returnUrl: Option<string>, tryCreate: string -> Option<AbsoluteUri>): (r: Option<string>)
    ensures r.Some? ==> returnUrl == Some(r.value)
    ensures returnUrl == None || returnUrl == Some("") ==> r == None
    ensures returnUrl.Some? && IsLocalPath(returnUrl.value) ==> r == returnUrl
    ensures returnUrl.Some? && |returnUrl.value| > 0 && !IsLocalPath(returnUrl.value) ==>
              (r.Some? <==> tryCreate(returnUrl.value).Some? && IsSafeOrigin(Origin(tryCreate(returnUrl.value).value)))
  {
    match returnUrl
    case None => None
    case Some(url) =>
      if |url| == 0 then None
      else if IsLocalPath(url) then returnUrl
      else if tryCreate(url).Some? && IsSafeOrigin(Origin(tryCreate(url).value)) then returnUrl
      else None
  }

  /** The return URL `InitialGitHubLogin` hands on to the callback: the
      validated one, or `"/"`. */
  function LoginReturnUrl(returnUrl: Option<string>, tryCreate: string -> Option<AbsoluteUri>): (r: string)
    ensures r == "/" || returnUrl == Some(r)
    ensures ValidateReturnUrl(returnUrl, tryCreate) == None ==> r == "/"
    ensures ValidateReturnUrl(returnUrl, tryCreate).Some? ==> r == ValidateReturnUrl(returnUrl, tryCreate).value
  {
    ValidateReturnUrl(returnUrl, tryCreate).GetOr("/")
  }

  /** The callback every login challenge returns to. */
  const CallbackPath := "/api/auth/github/callback"

  /** The `RedirectUri` of the persistent challenge `InitialGitHubLogin` issues:
      the callback, carrying the validated return URL (or `/`) as its escaped
      `returnUrl` query parameter. `escape` stands for `Uri.EscapeDataString`. */
  function ChallengeRedirectUri(returnUrl: Option<string>, tryCreate: string -> Option<AbsoluteUri>,
                                escape: string -> string): (r: string)
    ensures StartsWith(r, CallbackPath + "?returnUrl=")
    ensures var q := r[|CallbackPath + "?returnUrl="|..];
      q == escape("/") || (returnUrl.Some? && q == escape(returnUrl.value))
    ensures ValidateReturnUrl(returnUrl, tryCreate) == None ==> r == CallbackPath + "?returnUrl=" + escape("/")
    ensures ValidateReturnUrl(returnUrl, tryCreate).Some? ==>
              r == CallbackPath + "?returnUrl=" + escape(returnUrl.value)
  {
    var prefix := CallbackPath + "?returnUrl=";
    var r := prefix + escape(LoginReturnUrl(returnUrl, tryCreate));
    assert r[..|prefix|] == prefix && r[|prefix|..] == escape(LoginReturnUrl(returnUrl, tryCreate));
    r
  }

  /** Lower-casing leaves a string without upper-case ASCII letters unchanged. */
  lemma LowerOfLowerCase(s: string)
    requires forall i :: 0 <= i < |s| ==> !('A' <= s[i] <= 'Z')
    ensures Lower(s) == s
  {
  }

  /** The safe origins are exactly the two localhost front-end origins, in any
      letter case. */
  lemma {:induction false} SafeOriginIff(origin: string)
    ensures IsSafeOrigin(origin) <==>
              Lower(origin) == "http://localhost:5183" || Lower(origin) == "https://localhost:5183"
  {
    LowerOfLowerCase(SafeOrigins[0]);
    LowerOfLowerCase(SafeOrigins[1]);
    if Lower(origin) == "http://localhost:5183" {
      assert EqualsIgnoreCase(SafeOrigins[0], origin);
    } else if Lower(origin) == "https://localhost:5183" {
      assert EqualsIgnoreCase(SafeOrigins[1], origin);
    }
  }

  /** An absolute URL is accepted exactly when its scheme and authority name one
      of the localhost front-end origins, compared case-insensitively. */
  lemma AbsoluteAcceptedIff(url: string, tryCreate: string -> Option<AbsoluteUri>)
    requires !IsLocalPath(url)
    ensures ValidateReturnUrl(Some(url), tryCreate).Some? <==>
              |url| > 0 && tryCreate(url).Some? &&
              (Lower(Origin(tryCreate(url).value)) == "http://localhost:5183" ||
               Lower(Origin(tryCreate(url).value)) == "https://localhost:5183")
  {
    if tryCreate(url).Some? {
      SafeOriginIff(Origin(tryCreate(url).value));
    }
  }

  /** A protocol-relative URL (`//host/...`) is never taken for a local path: it
      gets through only when it parses to a safe origin. */
  lemma ProtocolRelativeNotLocal(url: string, tryCreate: string -> Option<AbsoluteUri>)
    requires StartsWith(url, "//")
    requires tryCreate(url) == None
    ensures ValidateReturnUrl(Some(url), tryCreate) == None
    ensures LoginReturnUrl(Some(url), tryCreate) == "/"
  {
  }
}
