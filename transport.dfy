/** The streaming-transport library (websocketpp) as seen by the core.
    The library itself is not modelled: the calls the core makes into it
    that have an effect the core relies on (perpetual mode, getting,
    binding, connecting, sending on and closing a connection) are recorded,
    in order, in the `requests` of a `Client`, and every outcome the
    library would report (an error code, a new connection handle) is a
    parameter supplied by the caller of the core operation. */
module Transport {

  /** An opaque transport-level connection handle. */
  datatype Handle = Handle(token: nat)

  /** A websocketpp error code: either no error or an error with its message. */
  datatype ErrorCode = Success | Failure(message: string)

  /** The outcome of `get_connection`: a new connection handle or an error. */
  datatype Result<T> = Ok(value: T) | Error(message: string)

  /** Close code used by `Disconnect` (CLOSE_NORMAL). */
  const CloseNormal: int := 1000
  /** Close code used on shutdown (websocketpp::close::status::going_away). */
  const GoingAway: int := 1001

  /** One call issued by the core to the transport library. */
  datatype Request =
    | StartPerpetual
    | StopPerpetual
    | GetConnection(uri: string)
    | SetOpenHandler(hdl: Handle)
    | SetFailHandler(hdl: Handle)
    | SetMessageHandler(hdl: Handle)
    | Connect(hdl: Handle)
    | Send(hdl: Handle, payload: string)
    | Close(hdl: Handle, code: int, reason: string)

  /** The shared transport client; its only observable state is the trace of
      calls it has received. */
  class Client {
    var requests: seq<Request>

    constructor ()
      ensures requests == []
    {
      requests := [];
    }

    method Record(r: Request)
      modifies this
      ensures requests == old(requests) + [r]
    {
      requests := requests + [r];
    }
  }
}
