/** One connection's state machine (`ConnectionMetaData`): its status, the
    transport handle it wraps, its subscription, and the callbacks the
    transport invokes on it. Each callback sets the status and reports to the
    listener's log and message queues. */
module Connection {

  import opened Wrappers
  import opened Transport
  import opened Decimal
  import opened Subscription
  import opened Delivery

  /** The statuses the C++ code keeps as strings. */
  datatype Status = Openning | Open | Failed | Closed | Suspended

  /** The string the C++ code stores for each status (spelled as in the code). */
  function StatusName(s: Status): string
  {
    match s
    case Openning => "openning"
    case Open => "open"
    case Failed => "failed"
    case Closed => "closed"
    case Suspended => "suspended"
  }

  /** The status a stored string stands for, if any: the inverse of `StatusName`. */
  function ParseStatus(name: string): (r: Option<Status>)
    ensures forall s: Status :: r == Some(s) <==> StatusName(s) == name
  {
    if name == "openning" then Some(Openning)
    else if name == "open" then Some(Open)
    else if name == "failed" then Some(Failed)
    else if name == "closed" then Some(Closed)
    else if name == "suspended" then Some(Suspended)
    else None
  }

  /** The log lines a connection emits. */
  function OpenedLog(id: int): string {
    "[INFO] connection [" + IntToString(id) + "] opened"
  }

  function SendFailedLog(id: int, message: string): string {
    "[ERROR] connection [" + IntToString(id) + "] cannot send subscription request, error message: " + message
  }

  function SendSucceededLog(id: int): string {
    "[INFO] connection [" + IntToString(id) + "] subscription request is successfully sent"
  }

  /** The line reporting the outcome of sending the join request. */
  function SendReport(id: int, ec: ErrorCode): string {
    match ec
    case Success => SendSucceededLog(id)
    case Failure(message) => SendFailedLog(id, message)
  }

  function FailedLog(id: int): string {
    "[ERROR] connection [" + IntToString(id) + "] cannot be opened"
  }

  function ClosedLog(id: int): string {
    "[INFO] connection [" + IntToString(id) + "] closed correctly"
  }

  function MessageLog(id: int): string {
    "[INFO] connection [" + IntToString(id) + "] message received"
  }

  /** A success report and a failure report can never be confused: they
      differ in their severity tag. */
  lemma SendReportsDistinct(id: int, message: string)
    ensures SendReport(id, Success) != SendReport(id, Failure(message))
  {
    assert SendReport(id, Success)[1] == 'I';
    assert SendReport(id, Failure(message))[1] == 'E';
  }

  class ConnectionMetaData {
    var status: Status
    const id: int
    const endpoint: Client
    const hdl: Handle
    const subscription: SubscriptionDetails
    const handler: Listener

    /** A new connection starts out "openning". */
    constructor (id: int, endpoint: Client, hdl: Handle, subscription: SubscriptionDetails, handler: Listener)
      ensures status == Openning
      ensures this.id == id && this.endpoint == endpoint && this.hdl == hdl
      ensures this.subscription == subscription && this.handler == handler
    {
      this.id := id;
      this.endpoint := endpoint;
      this.hdl := hdl;
      this.subscription := subscription;
      this.handler := handler;
      status := Openning;
    }

    /** Open callback: logs "opened", becomes open, sends the join request
        exactly once and logs exactly one line with the outcome of the send
        (`sendResult`, reported by the transport). The status stays open
        even when the send fails. */
    method OnOpen(sendResult: ErrorCode)
      requires handler.Valid()
      modifies this, endpoint, handler.logger
      ensures status == Open
      ensures endpoint.requests == old(endpoint.requests) + [Send(hdl, subscription.GenerateRequest())]
      ensures handler.logger.queue == old(handler.logger.queue) + [OpenedLog(id), SendReport(id, sendResult)]
      ensures handler.logger.stop == old(handler.logger.stop) && handler.logger.out == old(handler.logger.out)
      ensures unchanged(handler.recorder)
    {
      handler.HandleLogs(OpenedLog(id));
      status := Open;
      endpoint.Record(Send(hdl, subscription.GenerateRequest()));
      match sendResult {
        case Failure(message) => handler.HandleLogs(SendFailedLog(id, message));
        case Success => handler.HandleLogs(SendSucceededLog(id));
      }
    }

    /** Fail callback: becomes failed and logs exactly one line. */
    method OnFail()
      requires handler.Valid()
      modifies this, handler.logger
      ensures status == Failed
      ensures handler.logger.queue == old(handler.logger.queue) + [FailedLog(id)]
      ensures handler.logger.stop == old(handler.logger.stop) && handler.logger.out == old(handler.logger.out)
      ensures unchanged(handler.recorder)
    {
      status := Failed;
      handler.HandleLogs(FailedLog(id));
    }

    /** Close callback: becomes closed and logs exactly one line. */
    method OnClose()
      requires handler.Valid()
      modifies this, handler.logger
      ensures status == Closed
      ensures handler.logger.queue == old(handler.logger.queue) + [ClosedLog(id)]
      ensures handler.logger.stop == old(handler.logger.stop) && handler.logger.out == old(handler.logger.out)
      ensures unchanged(handler.recorder)
    {
      status := Closed;
      handler.HandleLogs(ClosedLog(id));
    }

    /** Message callback: an open connection logs exactly one line and then
        forwards the payload as exactly one message; in any other status the
        message is dropped and neither queue changes. The status never changes. */
    method OnMessageReceived(payload: string)
      requires handler.Valid()
      modifies handler.logger, handler.recorder
      ensures old(status) == Open ==>
        handler.logger.queue == old(handler.logger.queue) + [MessageLog(id)] &&
        handler.recorder.queue == old(handler.recorder.queue) + [payload]
      ensures old(status) != Open ==> unchanged(handler.logger, handler.recorder)
      ensures handler.logger.stop == old(handler.logger.stop) && handler.logger.out == old(handler.logger.out)
      ensures handler.recorder.stop == old(handler.recorder.stop) && handler.recorder.out == old(handler.recorder.out)
    {
      if status != Open {
        return;
      }
      handler.HandleLogs(MessageLog(id));
      handler.HandleNewMessage(payload);
    }

    /** Becomes suspended; no log, no send. */
    method Suspend()
      modifies this
      ensures status == Suspended
    {
      status := Suspended;
    }

    /** The status as the C++ code stores it: the string that stands for it. */
    function GetStatus(): (name: string)
      reads this
      ensures ParseStatus(name) == Some(status)
    {
      StatusName(status)
    }
  }
}
