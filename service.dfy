/** The handlers and the pipeline service: token issuance, the publish handler,
    the consumption task that moves one echoed speed into the cache, and the
    cache write itself. */
module Service {
  import opened Models
  import opened Constants
  import opened Utils
  import opened Jwt
  import opened InputValidation
  import SpeedJson

  /** The key generateToken signs with. It is not SECRET_KEY, the key the
      authorization middleware verifies with. */
  const SIGNING_KEY := "SOME-SECRET-KEY-WHICH-NOT_SECRET-ANY-MORE"

  /** The one cache key the pipeline writes. */
  const LATEST_SPEED_KEY := "latest_speed_data"

  /** Five minutes, in the Unix seconds of the "exp" claim. */
  const TOKEN_LIFETIME := 300

  const PUBLISHED_MESSAGE := "Published speed data to MQTT Pipeline"

  /** The claims of a token issued at Unix time `now`. */
  function IssueClaims(email: string, now: int): (c: Claims)
    ensures c.email == email && c.exp - now == TOKEN_LIFETIME
  {
    Claims(email, now + TOKEN_LIFETIME)
  }

  /** generateToken as written: the claims signed with SIGNING_KEY. */
  function GenerateTokenAsWritten(email: string, now: int): (t: Token)
    ensures t.claims == IssueClaims(email, now) && t.signingKey == SIGNING_KEY
  {
    Sign(IssueClaims(email, now), SIGNING_KEY)
  }

  /** generateToken signing with the key the middleware verifies with, the key
      the rest of this model issues tokens with. */
  function GenerateToken(email: string, now: int): (t: Token)
    ensures t.claims == IssueClaims(email, now) && t.signingKey == SECRET_KEY
  {
    Sign(IssueClaims(email, now), SECRET_KEY)
  }

  /** An issued token verifies for five minutes, up to and including its "exp"
      second, and afterwards fails with the expiry flag alone. The one
      exception is a token issued at Unix time -300, whose "exp" of 0 reads as
      no expiry at all. */
  lemma TokenLifetime(email: string, issuedAt: int, now: int)
    ensures Verify(GenerateToken(email, issuedAt), SECRET_KEY, now) == Parsed(true)
            <==> now <= issuedAt + TOKEN_LIFETIME || issuedAt + TOKEN_LIFETIME == 0
    ensures now > issuedAt + TOKEN_LIFETIME && issuedAt + TOKEN_LIFETIME != 0 ==>
              Verify(GenerateToken(email, issuedAt), SECRET_KEY, now) == ValidationError({Expired})
  {
  }

  datatype TokenResponse = TokenRejected(response: Response) | TokenIssued(token: Token)

  /** The GenerateToken handler: the same checks as the token-request
      middleware, answered with its own bodies, then issuance at time `now`
      signed with `key` (SIGNING_KEY as written, SECRET_KEY corrected). */
  function GenerateTokenHandler(b: EmailBinding, parseAddress: string -> AddressParse, now: int, key: string)
    : (r: TokenResponse)
    ensures r.TokenIssued? <==> b.EmailBody? && b.email != "" && parseAddress(b.email) == AddressOk
    ensures r.TokenIssued? ==> r.token.claims == Claims(b.email, now + TOKEN_LIFETIME)
    ensures r.TokenIssued? ==> r.token.signingKey == key
    ensures r.TokenRejected? ==> r.response.status == STATUS_BAD_REQUEST
    ensures b.EmailBindError? ==>
              r.response.body == Fields("Unable to marshal the request body", b.reason)
    ensures b == EmailBody("") ==> r.response.body == Fields("email not found", "invalid request received")
    ensures b.EmailBody? && b.email != "" && parseAddress(b.email).AddressError? ==>
              r.response.body == Fields("invalid email found", parseAddress(b.email).reason)
  {
    match b
    case EmailBindError(reason) =>
      TokenRejected(Response(STATUS_BAD_REQUEST, Fields("Unable to marshal the request body", reason)))
    case EmailBody(email) =>
      if email == "" then
        TokenRejected(Response(STATUS_BAD_REQUEST, Fields("email not found", "invalid request received")))
      else match parseAddress(email)
        case AddressError(reason) =>
          TokenRejected(Response(STATUS_BAD_REQUEST, Fields("invalid email found", reason)))
        case AddressOk => TokenIssued(Sign(IssueClaims(email, now), key))
  }

  /** The publish handler's own checks of the bound body. */
  datatype Check = Reject(response: Response) | Proceed(speed: int)

  function CheckPublishBody(b: SpeedBinding): (c: Check)
    ensures c.Proceed? <==> b.SpeedBody? && b.speed.Some? && InRange(b.speed.value)
    ensures c.Proceed? ==> b.speed == Some(c.speed)
    ensures c.Reject? ==> c.response.status == STATUS_BAD_REQUEST
    ensures b.SpeedBindError? ==>
              c.response.body == Fields("Unable to marshal the request body", b.reason)
    ensures b == SpeedBody(None) ==> c.response.body == Fields("email not found", "invalid request received")
    ensures b.SpeedBody? && b.speed.Some? && !InRange(b.speed.value) ==>
              c.response.body == Fields("invalid speed", "speed should be range between 0 and 100")
  {
    match b
    case SpeedBindError(reason) =>
      Reject(Response(STATUS_BAD_REQUEST, Fields("Unable to marshal the request body", reason)))
    case SpeedBody(None) =>
      Reject(Response(STATUS_BAD_REQUEST, Fields("email not found", "invalid request received")))
    case SpeedBody(Some(s)) =>
      if s < 0 || s > 100 then
        Reject(Response(STATUS_BAD_REQUEST, Fields("invalid speed", "speed should be range between 0 and 100")))
      else Proceed(s)
  }

  /** The broker's answer to a publish, and the cache's answer to a write. */
  datatype BrokerAck = Acked | BrokerFailed(reason: string)
  datatype CacheReply = Written | CacheFailed(reason: string)

  /** The error both `publish` and `storeInRedis` return, traced to the request. */
  function PipelineFailure(txid: string, reason: string): PipelineError {
    PipelineError(txid, STATUS_INTERNAL_SERVER_ERROR, "Unable to send the speed data on the topic, err " + reason)
  }

  /** A request starts a consumption task exactly when its body passes the
      handler's checks and the broker acknowledges the publish. */
  predicate StartsConsumer(b: SpeedBinding, ack: BrokerAck) {
    CheckPublishBody(b).Proceed? && ack.Acked?
  }

  /** The publish handler's response. On a broker failure the handler writes
      only the status of the error `publish` returned. */
  function PublishResponse(b: SpeedBinding, ack: BrokerAck): (r: Response)
    ensures r.status == STATUS_OK <==> StartsConsumer(b, ack)
    ensures r.status == STATUS_BAD_REQUEST <==> CheckPublishBody(b).Reject?
    ensures r.status == STATUS_INTERNAL_SERVER_ERROR <==> CheckPublishBody(b).Proceed? && ack.BrokerFailed?
    ensures r.status == STATUS_OK ==> r.body == Fields("message", PUBLISHED_MESSAGE)
    ensures r.status == STATUS_INTERNAL_SERVER_ERROR ==> r.body == NoBody
  {
    match CheckPublishBody(b)
    case Reject(response) => response
    case Proceed(_) =>
      match ack
      case BrokerFailed(_) => Response(STATUS_INTERNAL_SERVER_ERROR, NoBody)
      case Acked => Response(STATUS_OK, Fields("message", PUBLISHED_MESSAGE))
  }

  /** A cache entry: the stored bytes and the expiration passed to Set (0: none). */
  datatype Entry = Entry(value: string, expiration: int)

  /** What a read of the fixed key would find. */
  datatype CacheRead = Absent | Latest(speed: int) | Corrupt

  /** What one consumption task did. */
  datatype Consumed = Waiting | Cached(speed: int) | NotCached(error: PipelineError)

  /** The pipeline service: the shared speed channel, the key-value store it
      writes to, and the consumption tasks started and not yet finished. */
  class PipelineService {
    const channel: SpeedChannel
    var store: map<string, Entry>
    var consumers: nat

    /** NewMQTTPipelineService. */
    constructor (channel: SpeedChannel, store: map<string, Entry>)
      ensures this.channel == channel && this.store == store && consumers == 0
    {
      this.channel := channel;
      this.store := store;
      consumers := 0;
    }

    function LatestSpeed(): (r: CacheRead)
      reads this
      ensures r == Absent <==> LATEST_SPEED_KEY !in store
    {
      if LATEST_SPEED_KEY !in store then Absent
      else match SpeedJson.Unmarshal(store[LATEST_SPEED_KEY].value)
        case Decoded(Some(s)) => Latest(s)
        case _ => Corrupt
    }

    /** storeInRedis: the JSON of the speed goes to the fixed key, with no
        expiration, replacing whatever was there; no other key is touched. A
        failed write leaves the store as it was and returns a traced 500. */
    method StoreInRedis(txid: string, speed: int, reply: CacheReply) returns (err: Option<PipelineError>)
      modifies this`store
      ensures reply.Written? ==>
                err == None && store == old(store)[LATEST_SPEED_KEY := Entry(SpeedJson.Marshal(speed), 0)]
      ensures reply.Written? ==> LatestSpeed() == Latest(speed)
      ensures reply.CacheFailed? ==> err == Some(PipelineFailure(txid, reply.reason)) && store == old(store)
    {
      var value := SpeedJson.Marshal(speed);
      if reply.Written? {
        store := store[LATEST_SPEED_KEY := Entry(value, 0)];
        SpeedJson.MarshalRoundTrip(speed);
        err := None;
      } else {
        err := Some(PipelineFailure(txid, reply.reason));
      }
    }

    /** publish: marshal the speed and publish it; on acknowledgement one
        consumption task is started, on failure a traced 500 is returned and
        none is. */
    method Publish(txid: string, speed: int, ack: BrokerAck) returns (err: Option<PipelineError>, payload: string)
      modifies this`consumers
      ensures payload == SpeedJson.Marshal(speed)
      ensures ack.Acked? ==> err == None && consumers == old(consumers) + 1
      ensures ack.BrokerFailed? ==> err == Some(PipelineFailure(txid, ack.reason)) && consumers == old(consumers)
    {
      payload := SpeedJson.Marshal(speed);
      if ack.BrokerFailed? {
        err := Some(PipelineFailure(txid, ack.reason));
      } else {
        consumers := consumers + 1;
        err := None;
      }
    }

    /** The Publish handler. It returns the response and the payload the broker
        accepted, if any; the cache and the channel are not touched. */
    method HandlePublish(header: map<string, string>, b: SpeedBinding, ack: BrokerAck)
      returns (r: Response, published: Option<string>)
      modifies this`consumers
      ensures r == PublishResponse(b, ack)
      ensures consumers == old(consumers) + (if StartsConsumer(b, ack) then 1 else 0)
      ensures published == if StartsConsumer(b, ack) then Some(SpeedJson.Marshal(b.speed.value)) else None
    {
      match CheckPublishBody(b)
      case Reject(response) =>
        r, published := response, None;
      case Proceed(speed) =>
        var err, payload := Publish(HeaderGet(header, TRANSACTION_ID), speed, ack);
        if err.Some? {
          r, published := Response(err.value.code, NoBody), None;
        } else {
          r, published := Response(STATUS_OK, Fields("message", PUBLISHED_MESSAGE)), Some(payload);
        }
    }

    /** subscribeToMQTT, one consumption task: take the oldest value waiting on
        the channel (the zero value once the channel is closed and drained) and
        store it. With nothing to take the task keeps waiting and nothing changes. */
    method SubscribeToMQTT(txid: string, reply: CacheReply) returns (c: Consumed)
      requires consumers > 0
      modifies this`store, this`consumers, channel
      ensures channel.closed == old(channel.closed)
      ensures c == Waiting <==> old(channel.queue) == [] && !old(channel.closed)
      ensures c == Waiting ==>
                store == old(store) && consumers == old(consumers) && channel.queue == old(channel.queue)
      ensures c != Waiting ==> consumers == old(consumers) - 1
      ensures c != Waiting ==>
                channel.queue == if old(channel.queue) != [] then old(channel.queue)[1..] else old(channel.queue)
      ensures c != Waiting ==>
                var v := if old(channel.queue) != [] then old(channel.queue)[0] else 0;
                (reply.Written? ==>
                   c == Cached(v) && store == old(store)[LATEST_SPEED_KEY := Entry(SpeedJson.Marshal(v), 0)]
                   && LatestSpeed() == Latest(v))
                && (reply.CacheFailed? ==> c == NotCached(PipelineFailure(txid, reply.reason)) && store == old(store))
    {
      var received := channel.Receive();
      match received
      case WouldBlock =>
        c := Waiting;
      case Value(v) =>
        consumers := consumers - 1;
        var err := StoreInRedis(txid, v, reply);
        c := if err.Some? then NotCached(err.value) else Cached(v);
    }
  }
}
