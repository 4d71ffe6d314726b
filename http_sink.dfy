/** The remote web server the HTTP handler talks to, seen from the handler:
    the log of requests that reached it.  One `HttpURLConnection` exchange
    either delivers its request and brings back a status code, or fails in
    transport (connect or read timeout, refused connection), in which case
    the server saw nothing.  Which of the two happens is not the handler's
    choice, so it is an input to every exchange. */
module HttpSink {
  import opened JavaLang
  import opened MediaModel

  /** One request as the server receives it. */
  datatype Request = Request(verb: string, url: string, body: Bytes)

  /** What an exchange brings back. */
  datatype Reply = Status(code: int) | TransportFailure

  /** The requests an exchange adds to the server's log. */
  function Delivered(req: Request, reply: Reply): (sent: seq<Request>)
    ensures |sent| <= 1
    ensures sent != [] <==> reply.Status?
    ensures sent != [] ==> sent[0] == req
  {
    if reply.Status? then [req] else []
  }

  class RemoteEndpoint {
    /** Every request the server has received, oldest first. */
    var requests: seq<Request>

    constructor ()
      ensures requests == []
    {
      requests := [];
    }

    /** `getResponseCode()` on a prepared connection: the status, or None for the
        `IOException` a transport failure raises. */
    method Exchange(req: Request, reply: Reply) returns (status: Option<int>)
      modifies this
      ensures status == (if reply.Status? then Some(reply.code) else None)
      ensures requests == old(requests) + Delivered(req, reply)
    {
      requests := requests + Delivered(req, reply);
      status := if reply.Status? then Some(reply.code) else None;
    }
  }
}
