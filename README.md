# mqtt-pipeline, modelled in Dafny

The service exchanges an email address for a short-lived bearer token. It accepts a speed reading
over HTTP behind that token and publishes the reading to an MQTT topic. It then consumes the
echo of the reading from its own subscription and keeps the latest speed in a single Redis key.
This project models the decision logic between those pieces and proves what it promises:

- the request middleware: the transaction id, the publish-body validator and the token-request validator;
- the authorization middleware's table from (Authorization header, jwt parse outcome) to 401, 500 or next;
- the handlers: the publish handler's repeated checks, the broker outcome, token issuance with its claims;
- the pipeline, run one step at a time. The shared speed channel is a FIFO queue
  (`Utils.SpeedChannel`). The Redis keyspace is a map owned by `Service.PipelineService`.
  One consumption task takes one echoed value and overwrites `latest_speed_data`;
- the utilities: the default broker address, the subscription callback and the error payload;
- the `{"speed":n}` JSON text that is published, echoed and cached, with a proved decimal round trip;
- the publish route as registered: transaction id, then authorization, then body validation, then the handler.

Foreign calls become parameters. `uuid.Parse` becomes `isUuid`, and `uuid.New` a `freshId` that satisfies it.
`mail.ParseAddress` becomes `parseAddress`. `jwt.Parse` becomes `parse`, or `Jwt.Verify` on abstract
tokens whose signature is represented by the key that made it. The broker's and Redis's answers
(`BrokerAck`, `CacheReply`) and the issuing time `now` are inputs.

Three behaviours of the code shape the model:
First, the publish handler does not wait for the echo: it starts a consumption task and answers at once.
Second, an issued token is answered 500, not 401 after expiry, because of the key mismatch under "## Findings".
Third, the read endpoint registers a `GetSpeedData` handler that internal/service/service.go does not define.

The model assumes the broker was connected and the echo subscription registered at start-up
(`Utils.InitMQTT`, `Utils.InitMQTTSubscribe`). `cmd/main.go` as it stands calls neither. Without them the
publish at internal/service/service.go:128 has no client, and no echo ever reaches the channel.

## Model

| member | source | states |
|---|---|---|
| `Utils.BrokerAddress` | internal/utils/utils.go:41-44 | the broker address is never empty: the configured one when set, otherwise `tcp://broker.emqx.io:1883` |
| `Utils.InitMQTT` | internal/utils/utils.go:39-55 | connects to a non-empty address that is the configured one when set; a failed connection is fatal and only then |
| `Utils.RespondWithError` | internal/utils/utils.go:74-80 | aborts with the given status and an error body whose code is that status, whose message is the text and whose trace is the transaction-id header |
| `Utils.SpeedChannel.constructor` | internal/utils/utils.go:21 | the channel starts open and empty |
| `Utils.SpeedChannel.Send` | internal/utils/utils.go:64 | a send on an open channel appends the value at the back; on a closed one it panics and appends nothing |
| `Utils.SpeedChannel.Receive` | internal/service/service.go:147 | a receive takes the oldest waiting value; a closed drained channel yields 0; an open empty one would block |
| `Utils.SpeedChannel.Close` | internal/utils/utils.go:67 | closing marks the channel closed; senders still waiting panic |
| `Utils.DeliveryOf` | internal/utils/utils.go:61-65 | an undecodable payload is dropped, and only it; a decoded nil speed panics; a decoded speed is sent, and exactly that speed, when the channel is open |
| `Utils.OnMessage` | internal/utils/utils.go:61-65 | the callback's effect on the channel: the queue grows by the delivered speed and by nothing else |
| `Utils.EchoIsSent` | internal/utils/utils.go:62-64 | the echo of a published speed is sent on the open channel unchanged |
| `Utils.InitMQTTSubscribe` | internal/utils/utils.go:58-72 | a failed subscription closes the channel and is fatal; a successful one leaves the channel open and untouched |
| `SpeedJson.MarshalRoundTrip` | internal/service/service.go:126 | the JSON published for a speed decodes back to that speed |
| `SpeedJson.UnmarshalCanonical` | internal/service/service.go:161-162 | a payload that decodes to a speed is exactly that speed's marshalled JSON, so the cached bytes determine the speed and vice versa |
| `SpeedJson.IntTextRoundTrip` | internal/service/service.go:162 | an int written as JSON parses back to the same int, negatives included |
| `Jwt.Verify` | internal/middleware/auth.go:25-27 | parsing yields Valid exactly when the token was signed with the verifying key and `now` is not past `exp` (an `exp` of 0 never expires); expiry and a bad signature each set their own flag; no other error kind occurs |
| `InputValidation.Request.GetTransactionID` | internal/middleware/inputvalidation.go:18-26 | a header that is a UUID is returned and the header is left alone; otherwise the header is set to a fresh UUID, which is returned |
| `InputValidation.TransactionIdIsStable` | internal/middleware/inputvalidation.go:19-25 | a second call returns the first call's id and leaves the header unchanged |
| `InputValidation.ValidatePublishEndpointRequest` | internal/middleware/inputvalidation.go:35-64 | next exactly when the body binds, has a speed and the speed is in 0..100 inclusive; otherwise 400 with the message of the first failing check (bind, presence, range) |
| `InputValidation.PublishBounds` | internal/middleware/inputvalidation.go:55-62 | speeds 0 and 100 pass; -1 and 101 are refused; the empty body and speed -100 get 400 |
| `InputValidation.ValidateGetTokenEndpointRequest` | internal/middleware/inputvalidation.go:66-95 | next exactly when the body binds, the email is non-empty and it parses as an address; otherwise 400 with the message of the first failing check |
| `InputValidation.EmptyEmailNeverParsed` | internal/middleware/inputvalidation.go:78-85 | the empty email is refused whatever the address parser would say, so it is refused before any parse |
| `Auth.Authorization` | internal/middleware/auth.go:14-58 | next exactly when the header is non-empty and parses Valid; an empty header gets 401 `{"error":"Unauthorized"}`; 500 exactly for a parse error other than the lone expiry flag; 401 `token expired` for that flag alone; 401 `invalid token` for a parse without error that is not Valid |
| `Auth.ExpiredAndBadSignatureIsInternal` | internal/middleware/auth.go:33-41 | an expired token with a bad signature gets 500, because the flags are compared as a whole value |
| `Auth.BearerPrefixNotStripped` | internal/middleware/auth.go:17-27 | the header goes to the parser verbatim: `Bearer <t>` is not accepted by a parser that accepts `<t>` |
| `Auth.AuthorizationReadsHeaders` | internal/middleware/auth.go:16-17 | the outcome depends only on the Authorization and transaction-id headers |
| `Service.IssueClaims` | internal/service/service.go:74-76 | the claims carry the request's email and expire 300 seconds after `now` |
| `Service.GenerateTokenAsWritten` | internal/service/service.go:72-78 | the issued token carries those claims and is signed with the service's own key |
| `Service.GenerateToken` | internal/service/service.go:72-86 | the corrected issuance: the same claims, signed with the key the middleware verifies with |
| `Service.TokenLifetime` | internal/service/service.go:76 | an issued token verifies up to and including its `exp` second and afterwards fails with the expiry flag alone, except that an `exp` of 0 never expires |
| `Service.GenerateTokenHandler` | internal/service/service.go:38-70 | a token is issued exactly for a bound, non-empty, parseable email, with claims {email, now + 300}, signed with the key it is given (the service's own key as written, the verification key corrected); every refusal is 400 with the handler's own body |
| `Service.CheckPublishBody` | internal/service/service.go:91-106 | the handler proceeds, with the body's speed, exactly for a bound in-range speed; a missing speed gets 400 under the key `email not found`; an out-of-range one gets 400 `invalid speed` |
| `Service.PublishResponse` | internal/service/service.go:108-117 | 200 with the published message exactly when the checks pass and the broker acknowledges; 500 with no body when the checks pass and the broker fails; 400 exactly when the checks fail |
| `Service.PipelineService.constructor` | internal/service/service.go:32-36 | the service holds the given channel and store and has no consumption task yet |
| `Service.PipelineService.LatestSpeed` | internal/service/service.go:171 | the cache read is absent exactly when the fixed key has never been written |
| `Service.PipelineService.StoreInRedis` | internal/service/service.go:158-181 | a successful write replaces only `latest_speed_data` with the speed's JSON and no expiry, after which the cache reads that speed; a failed write changes nothing and returns a 500 traced to the transaction id |
| `Service.PipelineService.Publish` | internal/service/service.go:124-140 | the payload is the speed's JSON; an acknowledgement starts exactly one consumption task; a broker failure starts none and returns a 500 traced to the transaction id |
| `Service.PipelineService.HandlePublish` | internal/service/service.go:89-122 | the response is the handler's; one consumption task is started exactly when it answers 200; the cache and the channel are untouched |
| `Service.PipelineService.SubscribeToMQTT` | internal/service/service.go:142-156 | one task takes exactly the front of the channel and stores it, leaving the rest of the queue; a closed, drained channel yields 0, which is stored, and the queue stays empty; with nothing to take on an open channel it waits and nothing changes |
| `Server.PublishGate` | internal/server/server.go:24 | the publish route passes a request on exactly when it is authorized and its body is valid; authorization answers first, and an authorized request gets the body validator's answer |
| `Server.ServeToken` | internal/server/server.go:20 | the token route issues a token exactly when the token-request middleware passes the request, with claims {email, now + 300} and the given key; every refusal is the middleware's 400 error record traced to the transaction id, never the handler's own body |
| `Server.GatedEmailsIssued` | internal/server/server.go:20 | every request the token-request middleware passes makes the handler issue a token |
| `Server.UnauthenticatedOutOfRange` | internal/server/server.go:24 | a request without a token gets 401 even when its speed is out of range |
| `Server.GatedBodiesProceed` | internal/server/server.go:24 | every body the middleware lets through passes the handler's own checks with the same speed |
| `Server.ServePublish` | internal/server/server.go:23-35 | the route sets the transaction id; a gated request gets the gate's answer and starts nothing; the cache is never written while a request is served |
| `Server.PublishEchoConsume` | internal/service/service.go:136-150 | an in-range speed that is published, echoed and consumed is the cached speed; any other speed is refused with 400 and the cache stays empty |
| `Server.CrossedEchoes` | internal/service/service.go:137-150 | with echoes in the order B then A, the task request A started caches B's speed, and the last write wins |
| `Server.KeysDiffer` | internal/service/service.go:25 | the signing key differs from the verification key of internal/constants/constants.go:16 |
| `Server.IssuedTokenRejectedAsWritten` | internal/middleware/auth.go:25-41 | as written, a token the service issued gets 500 `error while parsing token` at any time |
| `Server.IssuedTokenAccepted` | internal/middleware/auth.go:25-37 | with one key, an issued token is authorized exactly until its `exp` second and then gets 401 `token expired`; an `exp` of 0 never expires |
| `Server.PublishWithToken` | internal/server/server.go:24 | a publish whose token parses Valid and whose speed is in range gets 200 and ends cached; with an out-of-range speed it gets 400 and nothing is cached; any other token gets the middleware's answer and nothing is cached |
| `Server.IssueThenPublishAsWritten` | internal/service/service.go:72-78 | as written, the token route issues a token signed with the service's own key, and a publish presenting it gets 500 and nothing is cached |
| `Server.IssueThenPublish` | internal/service/service.go:38-86 | with one key, the token route issues the corrected token for a valid email, and publishing it within five minutes gets 200, and the cache holds the speed |

## Left out

- Network I/O: the MQTT connect, publish acknowledgement and subscribe, and Redis `Set`. Their outcomes are inputs.
- Concurrency: goroutine scheduling, the blocking of unbuffered sends and receives, and request cancellation.
  A consumption task runs when a caller invokes `SubscribeToMQTT`. With nothing to take it reports `Waiting`.
  Blocked senders are the channel's queue.
- The error a consumption task returns is discarded by the `go` statement, and the model does the same.
- HMAC-SHA256 signing and verification and the token's text form. A token is its claims plus its signing key.
  The link between the Authorization header's text and a token is the `parse` parameter.
- The `!token.Valid` branch after a nil error cannot happen with jwt-go. It is kept as the abstract outcome `Parsed(false)`.
- The signing-error branch of `generateToken` (internal/service/service.go:78-85) is left out. So is the handler branch that writes its status (internal/service/service.go:58-60). HS256 signing with a byte key does not fail.
- The `json.Marshal` error branch of `storeInRedis` (internal/service/service.go:163-169) is left out. Marshalling a map holding one int does not fail.
- `SpeedJson.Unmarshal` decodes only the spellings `Marshal` produces, plus `{}` and `{"speed":null}`, which leave the speed nil.
  Other spellings that Go's decoder accepts are treated as undecodable. These include whitespace, extra or reordered fields, a differently-cased key and `-0`.
- Utils.DeliveryOf: payloads such as `null`, `{"other":1}` or `{ }` decode in Go with a nil speed and crash at internal/utils/utils.go:64. The model classifies them as `Dropped`, because its decoder does not recognise them; only `{}` and `{"speed":null}` reach the modelled crash.
- Integer width: Go's `int` is 64 bits. Speeds here are unbounded, so values outside the int64 range are not refused by decoding.
- Header canonicalisation and multi-valued headers of `http.Header`. A header is a map from the key as written to one value.
- gin's body caching by `ShouldBindBodyWith`: the middleware and the handler receive the same binding.
- Logging, the `runtime.NumGoroutine` print, TOML config loading (internal/config/config.go), `cmd/main.go` and server start and shutdown (internal/server/server.go:31-98).
- The read endpoint's handler `GetSpeedData` (internal/server/server.go:28) is not part of this model: internal/service/service.go defines no `GetSpeedData`.
- The topic name, QoS 0 and the retain flag of the publish are not modelled.

## Findings

| source | as written | input that shows it | evidently intended | confidence | as-written member | corrected member |
|---|---|---|---|---|---|---|
| internal/service/service.go:25 | tokens are signed with `SOME-SECRET-KEY-WHICH-NOT_SECRET-ANY-MORE`, but Authorization verifies with `SOME-SECRET-KEY-WHICH-IS-NOT_SECRET-ANY-MORE` (internal/constants/constants.go:16), so every issued token fails its signature check and is answered 500 | the token issued for `a@b.com` at time t, presented at time t with speed 42 | one key, so that a fresh token is authorized for five minutes and then answered 401 `token expired` | high, not executed | `Server.IssuedTokenRejectedAsWritten` | `Service.GenerateToken` |

Both halves are in the model. The code as written is `Service.GenerateTokenAsWritten`. `Server.IssuedTokenRejectedAsWritten` and `Server.IssueThenPublishAsWritten` prove the 500 for every issuing and presenting time.
The corrected `Service.GenerateToken` signs with the verification key. `Server.ServeToken` passes the handler the verification key in the corrected scenarios and the service's own key in `Server.IssueThenPublishAsWritten`.
`Service.TokenLifetime`, `Server.IssuedTokenAccepted` and `Server.IssueThenPublish` prove the intended five-minute window.
