/** Broker start-up decisions, the subscription callback that feeds the shared
    speed channel, and the error payload every middleware failure carries. */
module Utils {
  import opened Models
  import opened Constants
  import SpeedJson

  const DEFAULT_BROKER := "tcp://broker.emqx.io:1883"

  /** The broker InitMQTT connects to: the configured address, or the public
      default when none is configured. */
  function BrokerAddress(configured: string): (addr: string)
    ensures addr != ""
    ensures configured != "" ==> addr == configured
    ensures configured == "" ==> addr == DEFAULT_BROKER
  {
    if configured == "" then DEFAULT_BROKER else configured
  }

  datatype Startup = Running | Fatal

  datatype MqttInit = MqttInit(broker: string, status: Startup)

  /** InitMQTT: connect to the resolved broker; a failed connection ends the process. */
  function InitMQTT(configured: string, connected: bool): (r: MqttInit)
    ensures r.broker != "" && (configured != "" ==> r.broker == configured)
    ensures r.status == Fatal <==> !connected
  {
    MqttInit(BrokerAddress(configured), if connected then Running else Fatal)
  }

  /** Abort the chain with the error record: its code is the status, its
      message the given text, its trace the request's transaction id. */
  function RespondWithError(header: map<string, string>, status: int, message: string): (o: Outcome)
    ensures o.Abort? && o.response.status == status && o.response.body.ErrorBody?
    ensures o.response.body.error.code == status
    ensures o.response.body.error.message == message
    ensures o.response.body.error.trace == HeaderGet(header, TRANSACTION_ID)
  {
    Abort(Response(status, ErrorBody(PipelineError(HeaderGet(header, TRANSACTION_ID), status, message))))
  }

  datatype Received = Value(speed: int) | WouldBlock

  /** The process-wide unbuffered channel of echoed speeds. Executed
      sequentially, it is the FIFO queue of the values whose send is waiting
      for a receiver. */
  class SpeedChannel {
    var queue: seq<int>
    var closed: bool

    constructor ()
      ensures queue == [] && !closed
    {
      queue := [];
      closed := false;
    }

    /** A send on a closed channel panics (reported as false) and delivers nothing. */
    method Send(speed: int) returns (ok: bool)
      modifies this
      ensures ok == !old(closed) && closed == old(closed)
      ensures queue == if ok then old(queue) + [speed] else old(queue)
    {
      ok := !closed;
      if ok {
        queue := queue + [speed];
      }
    }

    /** A receive takes the oldest waiting value; on a closed, drained channel
        it yields the zero value at once; otherwise it would block. */
    method Receive() returns (r: Received)
      modifies this
      ensures closed == old(closed)
      ensures old(queue) != [] ==> r == Value(old(queue)[0]) && queue == old(queue)[1..]
      ensures old(queue) == [] ==> queue == [] && r == if closed then Value(0) else WouldBlock
    {
      if queue != [] {
        r := Value(queue[0]);
        queue := queue[1..];
      } else if closed {
        r := Value(0);
      } else {
        r := WouldBlock;
      }
    }

    /** Closing makes every sender still waiting panic, so nothing stays queued. */
    method Close()
      requires !closed
      modifies this
      ensures closed && queue == []
    {
      closed := true;
      queue := [];
    }
  }

  /** What the subscription callback does with one message. */
  datatype Delivery = Sent(speed: int) | Dropped | Panicked

  /** The callback's decision: a payload that does not decode is dropped; one
      that decodes with the speed pointer nil dereferences nil and panics, as
      does a send on a closed channel; otherwise its speed is sent. */
  function DeliveryOf(payload: string, closed: bool): (d: Delivery)
    ensures d == Dropped <==> SpeedJson.Unmarshal(payload).Undecodable?
    ensures d.Sent? <==> !closed && SpeedJson.Unmarshal(payload).Decoded?
                          && SpeedJson.Unmarshal(payload).speed.Some?
    ensures d.Sent? ==> SpeedJson.Unmarshal(payload) == SpeedJson.Decoded(Some(d.speed))
  {
    match SpeedJson.Unmarshal(payload)
    case Undecodable => Dropped
    case Decoded(None) => Panicked
    case Decoded(Some(s)) => if closed then Panicked else Sent(s)
  }

  /** The message handler InitMQTTSubscribe registers. */
  method OnMessage(ch: SpeedChannel, payload: string) returns (d: Delivery)
    modifies ch
    ensures d == DeliveryOf(payload, old(ch.closed)) && ch.closed == old(ch.closed)
    ensures ch.queue == if d.Sent? then old(ch.queue) + [d.speed] else old(ch.queue)
  {
    match SpeedJson.Unmarshal(payload)
    case Undecodable =>
      d := Dropped;
    case Decoded(None) =>
      d := Panicked;
    case Decoded(Some(s)) =>
      var ok := ch.Send(s);
      d := if ok then Sent(s) else Panicked;
  }

  /** The echo of a published speed is sent on an open channel unchanged. */
  lemma EchoIsSent(speed: int)
    ensures DeliveryOf(SpeedJson.Marshal(speed), false) == Sent(speed)
  {
    SpeedJson.MarshalRoundTrip(speed);
  }

  /** InitMQTTSubscribe: on a failed subscription the channel is closed and the
      process ends; otherwise the channel is left as it was. */
  method InitMQTTSubscribe(ch: SpeedChannel, subscribed: bool) returns (s: Startup)
    requires !ch.closed
    modifies ch
    ensures s == Fatal <==> !subscribed
    ensures subscribed ==> ch.queue == old(ch.queue) && !ch.closed
    ensures !subscribed ==> ch.closed && ch.queue == []
  {
    if subscribed {
      s := Running;
    } else {
      ch.Close();
      s := Fatal;
    }
  }
}
