/** The tenant-context middleware: before a request reaches its handler it
    records the organisation and user named by the bearer token, if any,
    on the request state. Token decoding (without signature check) is an
    oracle: it yields the claims, or None when it raises, returns None or
    returns an empty payload. */
module TenantContext {
  import opened Common
  import opened Strings

  /** The paths that skip token extraction, tested as prefixes. */
  const PublicPaths: seq<string> := ["/health", "/docs", "/openapi.json", "/redoc"]

  predicate IsPublicPath(path: string) {
    exists k | 0 <= k < |PublicPaths| :: StartsWith(path, PublicPaths[k])
  }

  /** It is a prefix test: any path extending a public one is public too. */
  lemma PublicPathIsPrefixTest()
    ensures IsPublicPath("/healthcheck/internal") && IsPublicPath("/docs-private")
    ensures !IsPublicPath("/api/health")
  {
    assert StartsWith("/healthcheck/internal", PublicPaths[0]);
    assert StartsWith("/docs-private", PublicPaths[1]);
    assert "/api/health"[1] == 'a';
    forall k | 0 <= k < |PublicPaths| ensures !StartsWith("/api/health", PublicPaths[k]) {
      assert PublicPaths[k][1] != 'a';
    }
  }

  const BearerPrefix := "Bearer "

  /** `auth_header.split(' ')[1]` for a header that starts with "Bearer ":
      the text after the prefix, up to the next space. */
  function BearerToken(header: string): (r: string)
    requires StartsWith(header, BearerPrefix)
    ensures ' ' !in r
  {
    var rest := header[|BearerPrefix|..];
    IndexOfFinds(rest, " ");
    match IndexOf(rest, " ")
    case None => NoSpaceIn(rest); rest
    case Some(i) => PrefixFree(rest, " ", i); NoSpaceIn(rest[..i]); rest[..i]
  }

  /** Without an occurrence of " ", no character is a space. */
  lemma NoSpaceIn(s: string)
    requires forall k :: !OccursAt(s, " ", k)
    ensures ' ' !in s
  {
    forall k | 0 <= k < |s| ensures s[k] != ' ' {
      assert !OccursAt(s, " ", k);
      assert s[k..k + 1] == [s[k]];
    }
  }

  /** The token is the second piece of the header split on single spaces. */
  lemma BearerTokenIsSecondPiece(header: string)
    requires StartsWith(header, BearerPrefix)
    ensures |Split(header, " ")| >= 2 && Split(header, " ")[1] == BearerToken(header)
  {
    IndexOfFinds(header, " ");
    assert OccursAt(header, " ", 6) by {
      assert header[6..7] == BearerPrefix[6..7];
    }
    assert forall k | 0 <= k < 6 :: !OccursAt(header, " ", k) by {
      forall k | 0 <= k < 6 ensures !OccursAt(header, " ", k) {
        assert header[k..k + 1] == [BearerPrefix[k]];
      }
    }
    assert IndexOf(header, " ") == Some(6);
  }

  /** The claims read from a decoded token. */
  datatype Claims = Claims(organizationId: Option<int>, userId: Option<int>)

  /** `request.state` as far as tenancy goes. */
  class RequestState {
    var organizationId: Option<int>
    var userId: Option<int>

    constructor ()
      ensures organizationId == None && userId == None
    {
      organizationId := None;
      userId := None;
    }

    /** `dispatch`, up to handing the request on: both ids are cleared first;
        on a non-public path with a "Bearer " header the decoded claims, if
        any, are recorded. */
    method Dispatch(path: string, authorization: Option<string>, decode: string -> Option<Claims>)
      modifies this
      ensures var claims := TokenClaims(path, authorization, decode);
        && organizationId == (if claims.Some? then claims.value.organizationId else None)
        && userId == (if claims.Some? then claims.value.userId else None)
    {
      organizationId := None;
      userId := None;
      if IsPublicPath(path) {
        return;
      }
      if authorization.Some? && authorization.value != "" && StartsWith(authorization.value, BearerPrefix) {
        var token := BearerToken(authorization.value);
        var payload := decode(token);
        if payload.Some? {
          organizationId := payload.value.organizationId;
          userId := payload.value.userId;
        }
      }
    }

    /** `require_organization_context`. */
    function RequireOrganizationContext(): (r: Result<int, HttpError>)
      reads this
      ensures r.Err? <==> organizationId.None?
      ensures r.Err? ==> r.error.status == 401
      ensures r.Ok? ==> r.value == organizationId.value
    {
      if organizationId.None? then Err(HttpError(401, "Organization context not found. Authentication required."))
      else Ok(organizationId.value)
    }
  }

  /** The claims the middleware records for a request, if any. */
  function TokenClaims(path: string, authorization: Option<string>, decode: string -> Option<Claims>): Option<Claims> {
    if IsPublicPath(path) then None
    else if authorization.Some? && StartsWith(authorization.value, BearerPrefix) then decode(BearerToken(authorization.value))
    else None
  }

  /** Public paths, a missing header, any other scheme and a token that does
      not decode all leave the request without tenant context. */
  lemma NoContextWithoutClaims(path: string, authorization: Option<string>, decode: string -> Option<Claims>)
    ensures IsPublicPath(path) ==> TokenClaims(path, authorization, decode).None?
    ensures authorization.None? || !StartsWith(authorization.value, BearerPrefix) ==> TokenClaims(path, authorization, decode).None?
    ensures (authorization.Some? && StartsWith(authorization.value, BearerPrefix)
      && decode(BearerToken(authorization.value)).None?) ==> TokenClaims(path, authorization, decode).None?
  {
  }

  /** A non-public request with a bearer token whose claims name an
      organisation passes `require_organization_context` with that id. */
  method DispatchThenRequire(path: string, header: string, decode: string -> Option<Claims>) returns (r: Result<int, HttpError>)
    requires !IsPublicPath(path) && StartsWith(header, BearerPrefix)
    ensures (decode(BearerToken(header)).Some? && decode(BearerToken(header)).value.organizationId.Some?)
      ==> r == Ok(decode(BearerToken(header)).value.organizationId.value)
    ensures decode(BearerToken(header)).None? ==> r.Err? && r.error.status == 401
  {
    var state := new RequestState();
    state.Dispatch(path, Some(header), decode);
    r := state.RequireOrganizationContext();
  }
}
