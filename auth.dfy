/** The authorization middleware: the bearer header and the outcome of parsing
    it decide between 401, 500 and passing the request on. */
module Auth {
  import opened Models
  import opened Constants
  import opened Utils
  import opened Jwt

  /** The parse outcomes answered with 500: any error that is not a
      ValidationError whose flags are exactly the expiry flag. */
  predicate InternalParseError(r: ParseResult) {
    r.OtherError? || (r.ValidationError? && r.flags != {Expired})
  }

  /** Authorization: `parse` is jwt.Parse with the verification key, applied to
      the Authorization header exactly as received. */
  function Authorization(header: map<string, string>, parse: string -> ParseResult): (o: Outcome)
    ensures o == Next <==>
              HeaderGet(header, AUTHORIZATION) != "" && parse(HeaderGet(header, AUTHORIZATION)) == Parsed(true)
    ensures o.Abort? ==> o.response.status == STATUS_UNAUTHORIZED || o.response.status == STATUS_INTERNAL_SERVER_ERROR
    ensures (o.Abort? && o.response.status == STATUS_INTERNAL_SERVER_ERROR) <==>
              HeaderGet(header, AUTHORIZATION) != "" && InternalParseError(parse(HeaderGet(header, AUTHORIZATION)))
    ensures HeaderGet(header, AUTHORIZATION) == "" ==>
              o == Abort(Response(STATUS_UNAUTHORIZED, Fields("error", "Unauthorized")))
    ensures HeaderGet(header, AUTHORIZATION) != "" && parse(HeaderGet(header, AUTHORIZATION)) == ValidationError({Expired}) ==>
              o == RespondWithError(header, STATUS_UNAUTHORIZED, "token expired")
    ensures HeaderGet(header, AUTHORIZATION) != "" && InternalParseError(parse(HeaderGet(header, AUTHORIZATION))) ==>
              o == RespondWithError(header, STATUS_INTERNAL_SERVER_ERROR, "error while parsing token")
    ensures HeaderGet(header, AUTHORIZATION) != "" && parse(HeaderGet(header, AUTHORIZATION)) == Parsed(false) ==>
              o == RespondWithError(header, STATUS_UNAUTHORIZED, "invalid token")
  {
    var token := HeaderGet(header, AUTHORIZATION);
    if token == "" then
      Abort(Response(STATUS_UNAUTHORIZED, Fields("error", "Unauthorized")))
    else match parse(token)
      case ValidationError(flags) =>
        if flags == {Expired} then RespondWithError(header, STATUS_UNAUTHORIZED, "token expired")
        else RespondWithError(header, STATUS_INTERNAL_SERVER_ERROR, "error while parsing token")
      case OtherError => RespondWithError(header, STATUS_INTERNAL_SERVER_ERROR, "error while parsing token")
      case Parsed(valid) =>
        if !valid then RespondWithError(header, STATUS_UNAUTHORIZED, "invalid token") else Next
  }

  /** An expired token whose signature also fails carries both flags, so the
      whole-value comparison misses it and the answer is 500, not 401. */
  lemma ExpiredAndBadSignatureIsInternal(header: map<string, string>, parse: string -> ParseResult)
    requires HeaderGet(header, AUTHORIZATION) != ""
    requires parse(HeaderGet(header, AUTHORIZATION)) == ValidationError({Expired, SignatureInvalid})
    ensures Authorization(header, parse).response.status == STATUS_INTERNAL_SERVER_ERROR
  {
  }

  /** No "Bearer " prefix is removed: with a parser that accepts exactly the
      token t, the header "Bearer " + t is not authorized. */
  lemma BearerPrefixNotStripped(header: map<string, string>, t: string)
    requires HeaderGet(header, AUTHORIZATION) == "Bearer " + t
    ensures Authorization(header, s => if s == t then Parsed(true) else OtherError).response.status
         == STATUS_INTERNAL_SERVER_ERROR
  {
  }

  /** The middleware looks at two headers only: the token and the transaction
      id that traces its error responses. */
  lemma AuthorizationReadsHeaders(h1: map<string, string>, h2: map<string, string>, parse: string -> ParseResult)
    requires HeaderGet(h1, AUTHORIZATION) == HeaderGet(h2, AUTHORIZATION)
    requires HeaderGet(h1, TRANSACTION_ID) == HeaderGet(h2, TRANSACTION_ID)
    ensures Authorization(h1, parse) == Authorization(h2, parse)
  {
  }
}
