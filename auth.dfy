/**
 * The bearer-token check guarding the control endpoint: the `Authorization`
 * header must be exactly "Bearer " followed by the configured secret (the
 * header form of section 2.1 of RFC 6750, compared as a plain string).
 */
module Auth {
  import opened Wrappers

  const SCHEME_PREFIX := "Bearer "

  /**
   * `verify_token`: a missing or empty header is refused, and so is any header
   * other than the exact expected one.
   */
  function TokenAccepted(authorization: Option<string>, secretToken: string): (ok: bool)
    ensures ok <==> authorization == Some(SCHEME_PREFIX + secretToken)
  {
    authorization.Some? && authorization.value != "" &&
    authorization.value == SCHEME_PREFIX + secretToken
  }

  /**
   * The comparison is exact, so the scheme name is case-sensitive here even
   * though RFC 7235 makes auth-scheme names case-insensitive.
   */
  lemma LowerCaseSchemeRefused(secretToken: string)
    ensures !TokenAccepted(Some("bearer " + secretToken), secretToken)
  {
    assert ("bearer " + secretToken)[0] != (SCHEME_PREFIX + secretToken)[0];
  }
}
