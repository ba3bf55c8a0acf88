/** The request middleware: the transaction id and the two body validators. */
module InputValidation {
  import opened Models
  import opened Constants
  import opened Utils

  /** The part of a request the middleware changes: its header map. */
  class Request {
    var header: map<string, string>

    constructor (header: map<string, string>)
      ensures this.header == header
    {
      this.header := header;
    }

    /** getTransactionID: a transaction-id header that is a UUID is kept and
        returned; anything else (a missing header reads as "") is replaced in
        the header by a freshly generated UUID, which is returned. */
    method GetTransactionID(isUuid: string -> bool, freshId: string) returns (id: string)
      requires isUuid(freshId)
      modifies this
      ensures isUuid(id) && HeaderGet(header, TRANSACTION_ID) == id
      ensures isUuid(HeaderGet(old(header), TRANSACTION_ID)) ==>
                id == HeaderGet(old(header), TRANSACTION_ID) && header == old(header)
      ensures !isUuid(HeaderGet(old(header), TRANSACTION_ID)) ==>
                id == freshId && header == old(header)[TRANSACTION_ID := freshId]
    {
      id := HeaderGet(header, TRANSACTION_ID);
      if !isUuid(id) {
        id := freshId;
        header := header[TRANSACTION_ID := id];
      }
    }
  }

  /** A second getTransactionID returns the id the first one returned and
      leaves the header as the first one left it, whatever UUID the generator
      would have produced. */
  method TransactionIdIsStable(header: map<string, string>, isUuid: string -> bool,
                               fresh1: string, fresh2: string)
    returns (id1: string, id2: string, after1: map<string, string>, after2: map<string, string>)
    requires isUuid(fresh1) && isUuid(fresh2)
    ensures id1 == id2 && after1 == after2
    ensures HeaderGet(after2, TRANSACTION_ID) == id1
  {
    var req := new Request(header);
    id1 := req.GetTransactionID(isUuid, fresh1);
    after1 := req.header;
    id2 := req.GetTransactionID(isUuid, fresh2);
    after2 := req.header;
  }

  /** The publishable range of a speed, both ends included. */
  predicate InRange(speed: int) {
    0 <= speed <= 100
  }

  /** ValidatePublishEndpointRequest: bind, then require the speed field, then
      require it in range; the first failing check answers 400 and stops the chain. */
  function ValidatePublishEndpointRequest(header: map<string, string>, b: SpeedBinding): (o: Outcome)
    ensures o == Next <==> b.SpeedBody? && b.speed.Some? && InRange(b.speed.value)
    ensures o.Abort? ==> o.response.status == STATUS_BAD_REQUEST
    ensures b.SpeedBindError? ==> o == RespondWithError(header, STATUS_BAD_REQUEST, INVALID_BODY)
    ensures b == SpeedBody(None) ==>
              o == RespondWithError(header, STATUS_BAD_REQUEST, "invalid request received")
    ensures b.SpeedBody? && b.speed.Some? && !InRange(b.speed.value) ==>
              o == RespondWithError(header, STATUS_BAD_REQUEST, "speed should be range between 0 and 100")
  {
    match b
    case SpeedBindError(_) => RespondWithError(header, STATUS_BAD_REQUEST, INVALID_BODY)
    case SpeedBody(None) => RespondWithError(header, STATUS_BAD_REQUEST, "invalid request received")
    case SpeedBody(Some(s)) =>
      if s < 0 || s > 100 then
        RespondWithError(header, STATUS_BAD_REQUEST, "speed should be range between 0 and 100")
      else Next
  }

  /** Both ends of the range reach the next handler; one step outside does not,
      and neither do the two bodies the middleware's tests send. */
  lemma PublishBounds(header: map<string, string>)
    ensures ValidatePublishEndpointRequest(header, SpeedBody(Some(0))) == Next
    ensures ValidatePublishEndpointRequest(header, SpeedBody(Some(100))) == Next
    ensures ValidatePublishEndpointRequest(header, SpeedBody(Some(-1))).Abort?
    ensures ValidatePublishEndpointRequest(header, SpeedBody(Some(101))).Abort?
    ensures ValidatePublishEndpointRequest(header, SpeedBody(Some(-100))).response.status == 400
    ensures ValidatePublishEndpointRequest(header, SpeedBody(None)).response.status == 400
  {
  }

  /** The result of mail.ParseAddress on the email. */
  datatype AddressParse = AddressOk | AddressError(reason: string)

  /** ValidateGetTokenEndointRequest: bind, then require a non-empty email, then
      require that it parses as an address; the first failing check answers 400. */
  function ValidateGetTokenEndpointRequest(header: map<string, string>, b: EmailBinding,
                                           parseAddress: string -> AddressParse): (o: Outcome)
    ensures o == Next <==> b.EmailBody? && b.email != "" && parseAddress(b.email) == AddressOk
    ensures o.Abort? ==> o.response.status == STATUS_BAD_REQUEST
    ensures b.EmailBindError? ==> o == RespondWithError(header, STATUS_BAD_REQUEST, INVALID_BODY)
    ensures b == EmailBody("") ==>
              o == RespondWithError(header, STATUS_BAD_REQUEST, "invalid request received")
    ensures b.EmailBody? && b.email != "" && parseAddress(b.email).AddressError? ==>
              o == RespondWithError(header, STATUS_BAD_REQUEST,
                                    "invalid email found, err : " + parseAddress(b.email).reason)
  {
    match b
    case EmailBindError(_) => RespondWithError(header, STATUS_BAD_REQUEST, INVALID_BODY)
    case EmailBody(email) =>
      if email == "" then
        RespondWithError(header, STATUS_BAD_REQUEST, "invalid request received")
      else match parseAddress(email)
        case AddressError(reason) =>
          RespondWithError(header, STATUS_BAD_REQUEST, "invalid email found, err : " + reason)
        case AddressOk => Next
  }

  /** The empty email is rejected before the address parser is consulted: the
      outcome is the same whatever the parser would say. */
  lemma EmptyEmailNeverParsed(header: map<string, string>, p1: string -> AddressParse,
                              p2: string -> AddressParse)
    ensures ValidateGetTokenEndpointRequest(header, EmailBody(""), p1)
         == ValidateGetTokenEndpointRequest(header, EmailBody(""), p2)
  {
  }
}
