/** The routes that chain the middleware and the handlers, and sequential runs
    of the publish, echo and cache path. */
module Server {
  import opened Models
  import opened Constants
  import opened Utils
  import opened Jwt
  import opened InputValidation
  import opened Auth
  import opened Service
  import SpeedJson

  /** The middleware of the publish route, in registration order:
      Authorization, then ValidatePublishEndpointRequest. */
  function PublishGate(header: map<string, string>, parse: string -> ParseResult, b: SpeedBinding): (o: Outcome)
    ensures o == Next <==> Authorization(header, parse) == Next && b.SpeedBody? && b.speed.Some? && InRange(b.speed.value)
    ensures Authorization(header, parse).Abort? ==> o == Authorization(header, parse)
    ensures Authorization(header, parse) == Next ==> o == ValidatePublishEndpointRequest(header, b)
  {
    match Authorization(header, parse)
    case Abort(response) => Abort(response)
    case Next => ValidatePublishEndpointRequest(header, b)
  }

  /** Authorization is decided before the body is looked at: a request without
      a token is answered 401 even when its speed is out of range. */
  lemma UnauthenticatedOutOfRange(header: map<string, string>, parse: string -> ParseResult, speed: int)
    requires HeaderGet(header, AUTHORIZATION) == "" && !InRange(speed)
    ensures PublishGate(header, parse, SpeedBody(Some(speed))).response
         == Response(STATUS_UNAUTHORIZED, Fields("error", "Unauthorized"))
  {
  }

  /** Behind the middleware the handler's own body checks always pass, so its
      400 answers are never given on this route. */
  lemma GatedBodiesProceed(header: map<string, string>, parse: string -> ParseResult, b: SpeedBinding)
    requires PublishGate(header, parse, b) == Next
    ensures CheckPublishBody(b) == Proceed(b.speed.value)
  {
  }

  /** POST /v1: ValidateGetTokenEndointRequest, then the GenerateToken handler
      signing with `key`. A refused request gets the middleware's error record,
      so the handler's own 400 bodies never reach a client of this route. */
  function ServeToken(header: map<string, string>, b: EmailBinding, parseAddress: string -> AddressParse,
                      now: int, key: string): (r: TokenResponse)
    ensures r.TokenIssued? <==> ValidateGetTokenEndpointRequest(header, b, parseAddress) == Next
    ensures r.TokenIssued? ==> r.token.claims == Claims(b.email, now + TOKEN_LIFETIME) && r.token.signingKey == key
    ensures r.TokenRejected? ==>
              r.response.status == STATUS_BAD_REQUEST && r.response.body.ErrorBody?
              && r.response.body.error.trace == HeaderGet(header, TRANSACTION_ID)
  {
    match ValidateGetTokenEndpointRequest(header, b, parseAddress)
    case Abort(response) => TokenRejected(response)
    case Next => GenerateTokenHandler(b, parseAddress, now, key)
  }

  /** Behind the token-request middleware the handler always issues a token. */
  lemma GatedEmailsIssued(header: map<string, string>, b: EmailBinding, parseAddress: string -> AddressParse,
                          now: int, key: string)
    requires ValidateGetTokenEndpointRequest(header, b, parseAddress) == Next
    ensures GenerateTokenHandler(b, parseAddress, now, key).TokenIssued?
  {
  }

  /** POST /v1/publish: SetTransactionId, the gate, then the Publish handler. A
      request stopped by the gate gets the gate's response and starts nothing;
      the cache is never written while the request is served. */
  method ServePublish(req: Request, svc: PipelineService, isUuid: string -> bool, freshId: string,
                      parse: string -> ParseResult, b: SpeedBinding, ack: BrokerAck)
    returns (r: Response, published: Option<string>)
    requires isUuid(freshId)
    modifies req, svc`consumers
    ensures HeaderGet(req.header, TRANSACTION_ID) ==
              if isUuid(HeaderGet(old(req.header), TRANSACTION_ID)) then HeaderGet(old(req.header), TRANSACTION_ID)
              else freshId
    ensures HeaderGet(req.header, AUTHORIZATION) == HeaderGet(old(req.header), AUTHORIZATION)
    ensures svc.store == old(svc.store)
    ensures PublishGate(req.header, parse, b).Abort? ==>
              r == PublishGate(req.header, parse, b).response
              && published == None && svc.consumers == old(svc.consumers)
    ensures PublishGate(req.header, parse, b) == Next ==>
              r == PublishResponse(b, ack)
              && svc.consumers == old(svc.consumers) + (if ack.Acked? then 1 else 0)
              && published == (if ack.Acked? then Some(SpeedJson.Marshal(b.speed.value)) else None)
  {
    var _ := req.GetTransactionID(isUuid, freshId);
    match PublishGate(req.header, parse, b)
    case Abort(response) =>
      r, published := response, None;
    case Next =>
      r, published := svc.HandlePublish(req.header, b, ack);
  }

  /** A body whose speed is in range, published, echoed back by the broker and
      consumed, ends up as the cached speed; any other speed is refused with 400
      and the cache stays empty. */
  method PublishEchoConsume(speed: int) returns (r: Response, latest: CacheRead)
    ensures InRange(speed) ==> r.status == STATUS_OK && latest == Latest(speed)
    ensures !InRange(speed) ==> r.status == STATUS_BAD_REQUEST && latest == Absent
  {
    var ch := new SpeedChannel();
    var svc := new PipelineService(ch, map[]);
    var published;
    r, published := svc.HandlePublish(map[], SpeedBody(Some(speed)), Acked);
    if published.Some? {
      EchoIsSent(speed);
      var _ := OnMessage(ch, published.value);
      var _ := svc.SubscribeToMQTT("", Written);
    }
    latest := svc.LatestSpeed();
  }

  /** The shared channel does not match echoes to requests: when the echo of B
      arrives before the echo of A, the task A started caches B's speed, and
      the cache ends with the speed whose write came last. */
  method CrossedEchoes(a: int, b: int) returns (firstConsumed: Consumed, last: CacheRead)
    requires InRange(a) && InRange(b)
    ensures firstConsumed == Cached(b)
    ensures last == Latest(a)
  {
    var ch := new SpeedChannel();
    var svc := new PipelineService(ch, map[]);
    var _, publishedA := svc.HandlePublish(map[], SpeedBody(Some(a)), Acked);
    var _, publishedB := svc.HandlePublish(map[], SpeedBody(Some(b)), Acked);
    EchoIsSent(a);
    EchoIsSent(b);
    var _ := OnMessage(ch, publishedB.value);
    var _ := OnMessage(ch, publishedA.value);
    firstConsumed := svc.SubscribeToMQTT("a", Written);
    var _ := svc.SubscribeToMQTT("b", Written);
    last := svc.LatestSpeed();
  }

  /** The signing key and the verification key are different values. */
  lemma KeysDiffer()
    ensures SIGNING_KEY != SECRET_KEY
  {
  }

  /** As written, a token the service itself issued never passes
      Authorization: its signature fails under the verification key, so the
      request is answered 500 whether or not the token has expired. */
  lemma IssuedTokenRejectedAsWritten(header: map<string, string>, parse: string -> ParseResult,
                                     email: string, issuedAt: int, now: int)
    requires HeaderGet(header, AUTHORIZATION) != ""
    requires parse(HeaderGet(header, AUTHORIZATION)) == Verify(GenerateTokenAsWritten(email, issuedAt), SECRET_KEY, now)
    ensures Authorization(header, parse) == RespondWithError(header, STATUS_INTERNAL_SERVER_ERROR, "error while parsing token")
  {
  }

  /** With one key, an issued token passes Authorization up to its "exp" second
      and is answered 401 "token expired" afterwards (a token whose "exp" is 0
      never expires). */
  lemma IssuedTokenAccepted(header: map<string, string>, parse: string -> ParseResult,
                            email: string, issuedAt: int, now: int)
    requires HeaderGet(header, AUTHORIZATION) != ""
    requires parse(HeaderGet(header, AUTHORIZATION)) == Verify(GenerateToken(email, issuedAt), SECRET_KEY, now)
    ensures Authorization(header, parse) == Next <==>
              now <= issuedAt + TOKEN_LIFETIME || issuedAt + TOKEN_LIFETIME == 0
    ensures now > issuedAt + TOKEN_LIFETIME && issuedAt + TOKEN_LIFETIME != 0 ==>
              Authorization(header, parse) == RespondWithError(header, STATUS_UNAUTHORIZED, "token expired")
  {
  }

  /** A request to /v1/publish that presents `tokenText` and carries `speed`,
      served by a fresh service whose broker acknowledges and echoes the
      publish, after which one consumption task runs. */
  method PublishWithToken(tokenText: string, parse: string -> ParseResult, speed: int)
    returns (r: Response, latest: CacheRead)
    requires tokenText != ""
    ensures parse(tokenText) == Parsed(true) && InRange(speed) ==>
              r == Response(STATUS_OK, Fields("message", PUBLISHED_MESSAGE)) && latest == Latest(speed)
    ensures parse(tokenText) == Parsed(true) && !InRange(speed) ==>
              r.status == STATUS_BAD_REQUEST && latest == Absent
    ensures parse(tokenText) != Parsed(true) ==>
              r == Authorization(map[AUTHORIZATION := tokenText, TRANSACTION_ID := "generated-id"], parse).response
              && latest == Absent
  {
    var req := new Request(map[AUTHORIZATION := tokenText]);
    var ch := new SpeedChannel();
    var svc := new PipelineService(ch, map[]);
    var published;
    r, published := ServePublish(req, svc, id => id != "", "generated-id", parse, SpeedBody(Some(speed)), Acked);
    AuthorizationReadsHeaders(req.header, map[AUTHORIZATION := tokenText, TRANSACTION_ID := "generated-id"], parse);
    if published.Some? {
      EchoIsSent(speed);
      var _ := OnMessage(ch, published.value);
      var _ := svc.SubscribeToMQTT(HeaderGet(req.header, TRANSACTION_ID), Written);
    }
    latest := svc.LatestSpeed();
  }

  /** As written: an email is exchanged for a token, and a publish presenting
      that token is answered 500 and caches nothing. */
  method IssueThenPublishAsWritten(email: string, parseAddress: string -> AddressParse, now: int,
                                   tokenText: string, parse: string -> ParseResult, speed: int)
    returns (issued: TokenResponse, r: Response, latest: CacheRead)
    requires email != "" && parseAddress(email) == AddressOk
    requires tokenText != ""
    requires parse(tokenText) == Verify(GenerateTokenAsWritten(email, now), SECRET_KEY, now)
    ensures issued == TokenIssued(GenerateTokenAsWritten(email, now))
    ensures r.status == STATUS_INTERNAL_SERVER_ERROR && latest == Absent
  {
    issued := ServeToken(map[], EmailBody(email), parseAddress, now, SIGNING_KEY);
    KeysDiffer();
    r, latest := PublishWithToken(tokenText, parse, speed);
    IssuedTokenRejectedAsWritten(map[AUTHORIZATION := tokenText], parse, email, now, now);
  }

  /** With one key: POST /v1 exchanges a valid email for a token, a publish
      presenting it within five minutes is answered 200, and the cache then
      holds the published speed. */
  method IssueThenPublish(email: string, parseAddress: string -> AddressParse, issuedAt: int, now: int,
                          tokenText: string, parse: string -> ParseResult, speed: int)
    returns (issued: TokenResponse, r: Response, latest: CacheRead)
    requires email != "" && parseAddress(email) == AddressOk
    requires tokenText != ""
    requires parse(tokenText) == Verify(GenerateToken(email, issuedAt), SECRET_KEY, now)
    requires issuedAt <= now <= issuedAt + TOKEN_LIFETIME && InRange(speed)
    ensures issued == TokenIssued(GenerateToken(email, issuedAt))
    ensures r == Response(STATUS_OK, Fields("message", PUBLISHED_MESSAGE)) && latest == Latest(speed)
  {
    issued := ServeToken(map[], EmailBody(email), parseAddress, issuedAt, SECRET_KEY);
    TokenLifetime(email, issuedAt, now);
    r, latest := PublishWithToken(tokenText, parse, speed);
  }
}
