/**
 * Request readers shared, as identical copies, by several API routes: the
 * access token from an `Authorization: Bearer` header (section 2.1 of
 * RFC 6750) or the `x-granola-token` header, the test for auth-like error
 * messages, and trimmed non-blank string fields of a JSON body.
 */
module RouteInputs {
  import opened Common
  import opened Text
  import opened JsValue

  /** `authorization.toLowerCase().startsWith("bearer ")`. */
  predicate HasBearerPrefix(authorization: string) {
    StartsWith(ToLower(authorization), "bearer ")
  }

  /**
   * `readAccessToken`: the trimmed credentials after "bearer " (any case) when not blank,
   * else the trimmed `x-granola-token` header when not blank, else nothing.
   */
  function ReadAccessToken(authorization: Option<string>, tokenHeader: Option<string>): (r: Option<string>)
    ensures r.Some? ==> r.value != "" && IsTrimmed(r.value)
    ensures authorization.Some? && HasBearerPrefix(authorization.value) && !IsBlank(authorization.value[7..]) ==>
      r == Some(Trim(authorization.value[7..]))
    ensures r.None? <==>
      !(authorization.Some? && HasBearerPrefix(authorization.value) && !IsBlank(authorization.value[7..]))
      && (tokenHeader.None? || IsBlank(tokenHeader.value))
  {
    if authorization.Some? && HasBearerPrefix(authorization.value) && Trim(authorization.value[7..]) != [] then
      Some(Trim(authorization.value[7..]))
    else if tokenHeader.Some? && Trim(tokenHeader.value) != [] then
      Some(Trim(tokenHeader.value))
    else None
  }

  /** The scheme name matches in any case, as section 2.1 of RFC 6750 allows. */
  lemma BearerSchemeAnyCase(credentials: string)
    requires !IsBlank(credentials)
    ensures ReadAccessToken(Some("BeArEr " + credentials), None) == Some(Trim(credentials))
  {
    var header := "BeArEr " + credentials;
    assert ToLower(header)[..7] == "bearer ";
    assert header[7..] == credentials;
  }

  /** A blank bearer value falls back to the custom header. */
  lemma BlankBearerFallsBack(token: string)
    requires !IsBlank(token)
    ensures ReadAccessToken(Some("Bearer   "), Some(token)) == Some(Trim(token))
  {
    var header := "Bearer   ";
    assert AllSpace(header[7..]);
  }

  /** `isAuthErrorMessage`: the lower-cased message mentions 401, unauthorized, forbidden or an invalid token. */
  predicate IsAuthErrorMessage(message: string) {
    var normalized := ToLower(message);
    Contains(normalized, "401") || Contains(normalized, "unauthorized")
    || Contains(normalized, "forbidden") || Contains(normalized, "invalid token")
  }

  /** Upper-case spellings count as auth errors too. */
  lemma UpperCaseForbiddenIsAuth(prefix: string)
    ensures IsAuthErrorMessage(prefix + "FORBIDDEN")
  {
    var lowered := ToLower(prefix + "FORBIDDEN");
    assert lowered[|prefix|..|prefix| + 9] == "forbidden";
    ContainsAt(lowered, "forbidden", |prefix|);
  }

  /** The trimmed `payload[key]` when the payload is a record and the field is a non-blank string. */
  function ReadTrimmedField(payload: Json, key: string): (r: Option<string>)
    ensures r.Some? ==> r.value != "" && IsTrimmed(r.value)
    ensures r.Some? <==> IsRecord(payload) && AsString(Get(payload, key)).Some? && !IsBlank(AsString(Get(payload, key)).value)
    ensures r.Some? ==> r.value == Trim(AsString(Get(payload, key)).value)
  {
    if !IsRecord(payload) then None
    else
      var value := AsString(Get(payload, key));
      if value.Some? && Trim(value.value) != [] then Some(Trim(value.value)) else None
  }
}
