/** The API gateway's authentication middleware (msa/API_gateway/src/auth.js):
    from the request's `Authorization` header (or, in debug mode, an
    `authorization` query parameter) to either `req.user` and a plain
    `next()`, or one `next({ status: 401, message })`. `JSON.parse` and
    `jwt.verify` enter as parameters. */
module GatewayAuth {
  import opened Common

  /** The error object handed to `next`. */
  datatype HttpError = HttpError(status: nat, message: string)

  /** What `jwt.verify` reports to its callback: an error, or the decoded
      payload (`None` for a falsy one). */
  datatype Verification = VerifyFailed | Verified(data: Option<Claims>)

  /** The observable effect of one request on the middleware: the value
      assigned to `req.user`, the arguments of every `next` call in order,
      the token handed to `jwt.verify`, and an exception escaping it. */
  datatype Effect = Effect(user: Option<Claims>, nextCalls: seq<Option<HttpError>>, verifiedToken: Option<string>, threw: Option<string>)

  const UnauthorizedMessage := "Unauthorized"
  const BearerOnlyMessage := "Only bearer authentication is allowed"
  const InvalidTokenMessage := "Supplied token is invalid"
  const InvalidPayloadMessage := "Invalid token payload"
  const BearerPrefix := "Bearer "

  predicate StartsWithBearer(h: string)
  {
    |h| >= |BearerPrefix| && h[..|BearerPrefix|] == BearerPrefix
  }

  function Reject(message: string, verifiedToken: Option<string>): Effect
  {
    Effect(None, [Some(HttpError(401, message))], verifiedToken, None)
  }

  /** The middleware. `debug` is the truthiness of `process.env.DEBUG`. */
  function Authenticate(debug: bool, queryAuthorization: Option<string>, parse: string -> Result<Claims>,
                        header: Option<string>, verify: string -> Verification): (e: Effect)
    // exactly one `next` call, unless parsing the debug parameter throws
    ensures e.threw.None? <==> |e.nextCalls| == 1
    ensures e.threw.Some? ==> e.nextCalls == [] && debug && Truthy(queryAuthorization)
    // the debug parameter bypasses every header check
    ensures debug && Truthy(queryAuthorization) ==>
      e.verifiedToken.None? && (parse(queryAuthorization.value).Ok? ==> e == Effect(Some(parse(queryAuthorization.value).value), [None], None, None))
    // a user is set exactly when `next` is called without an error
    ensures e.user.Some? <==> e.nextCalls == [None]
    ensures !(debug && Truthy(queryAuthorization)) ==>
      && e.threw.None?
      && (!Truthy(header) ==> e == Reject(UnauthorizedMessage, None))
      && (Truthy(header) && !StartsWithBearer(header.value) ==> e == Reject(BearerOnlyMessage, None))
      && (Truthy(header) && StartsWithBearer(header.value) ==>
            && e.verifiedToken == Some(header.value[7..])
            && header.value == BearerPrefix + e.verifiedToken.value
            && (verify(e.verifiedToken.value).VerifyFailed? ==> e.nextCalls == [Some(HttpError(401, InvalidTokenMessage))])
            && (verify(e.verifiedToken.value) == Verified(None) ==> e.nextCalls == [Some(HttpError(401, InvalidPayloadMessage))])
            && (verify(e.verifiedToken.value).Verified? && verify(e.verifiedToken.value).data.Some? ==>
                  e.user == verify(e.verifiedToken.value).data && e.nextCalls == [None]))
    ensures forall k :: 0 <= k < |e.nextCalls| && e.nextCalls[k].Some? ==> e.nextCalls[k].value.status == 401
  {
    if debug && Truthy(queryAuthorization) then
      match parse(queryAuthorization.value)
      case Err(m) => Effect(None, [], None, Some(m))
      case Ok(user) => Effect(Some(user), [None], None, None)
    else if !Truthy(header) then Reject(UnauthorizedMessage, None)
    else if !StartsWithBearer(header.value) then Reject(BearerOnlyMessage, None)
    else
      var token := header.value[7..];
      assert header.value == BearerPrefix + token by {
        assert header.value == header.value[..7] + header.value[7..];
      }
      match verify(token)
      case VerifyFailed => Reject(InvalidTokenMessage, Some(token))
      case Verified(None) => Reject(InvalidPayloadMessage, Some(token))
      case Verified(Some(data)) => Effect(Some(data), [None], Some(token), None)
  }

  /** Unless the debug bypass applies, neither the query parameter nor the
      parser it would go through affects the request in any way. */
  lemma QueryIgnoredOutsideDebug(debug: bool, query1: Option<string>, query2: Option<string>,
                                 parse1: string -> Result<Claims>, parse2: string -> Result<Claims>,
                                 header: Option<string>, verify: string -> Verification)
    requires !(debug && Truthy(query1)) && !(debug && Truthy(query2))
    ensures Authenticate(debug, query1, parse1, header, verify) == Authenticate(debug, query2, parse2, header, verify)
  {
  }

  /** A user is only ever set from the debug parameter or from the payload
      `jwt.verify` reports for the header's token. */
  lemma UserOnlyFromVerifier(debug: bool, query: Option<string>, parse: string -> Result<Claims>,
                             header: Option<string>, verify: string -> Verification)
    ensures var e := Authenticate(debug, query, parse, header, verify);
      e.user.Some? ==>
        || (debug && Truthy(query) && parse(query.value) == Ok(e.user.value))
        || (e.verifiedToken.Some? && header == Some(BearerPrefix + e.verifiedToken.value)
            && verify(e.verifiedToken.value) == Verified(e.user))
  {
  }
}
