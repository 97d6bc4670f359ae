/**
 * The HTTP side of `Cohesion::Client`, reduced to what the association layer
 * sees: it sends a request (verb, path, optional JSON body) and either gets
 * the decoded response body back or an exception. The server is an abstract
 * collaborator whose answer may depend on everything sent before.
 */
module Transport {
  import opened Wrappers
  import opened Values

  datatype Verb = Get | Put | Post | Patch | Delete

  datatype Request = Request(verb: Verb, path: string, body: Option<Json>)

  /** How the server answers: a decoded body, a 404, or any other failure. */
  datatype Reply = Answered(body: Json) | NotFound | Failed

  /** The server's answer to a request, given the requests it received before. */
  type Server = (seq<Request>, Request) -> Reply

  /**
   * The body the client hands back, or the exception that the raise-error
   * middleware turns a failed response into.
   */
  function Deliver(reply: Reply): (r: Result<Json, Error>)
    ensures r.Ok? <==> reply.Answered?
    ensures r.Ok? ==> r.value == reply.body
    ensures r == Err(ResourceNotFound) <==> reply.NotFound?
    ensures reply.Failed? ==> r == Err(ClientError)
  {
    match reply
    case Answered(body) => Ok(body)
    case NotFound => Err(ResourceNotFound)
    case Failed => Err(ClientError)
  }

  /** The answer `server` gives to `req` when `trace` went before it. */
  function Exchange(server: Server, trace: seq<Request>, req: Request): Result<Json, Error>
  {
    Deliver(server(trace, req))
  }

  class Client {
    const server: Server
    /** Every request sent so far, oldest first. */
    var trace: seq<Request>

    constructor(server: Server)
      ensures this.server == server && trace == []
    {
      this.server := server;
      trace := [];
    }

    /** `get`, `put`, `post`, `patch` and `delete`: one request, one answer. */
    method Send(req: Request) returns (r: Result<Json, Error>)
      modifies this
      ensures trace == old(trace) + [req]
      ensures r == Exchange(server, old(trace), req)
    {
      r := Exchange(server, trace, req);
      trace := trace + [req];
    }
  }
}
