/**
 * The part of net/http the request engine touches, as values.
 * Sending a request is an oracle (`Client`): the model never talks to a network.
 */
module Http {
  import opened Wrappers

  type byte = x: int | 0 <= x < 256

  datatype Header = Header(name: string, value: string)

  /** A response or request body: the chunks a reader yields, then either EOF or a read error. */
  datatype Body = Body(chunks: seq<seq<byte>>, readError: Option<string>)

  /** `verb` is the HTTP method (GET, POST, ...). */
  datatype Request = Request(verb: string, url: string, header: seq<Header>, body: Option<Body>)

  datatype Response = Response(statusCode: int, body: Body)

  /** What one call of the HTTP client yields: a transport error or a response. */
  datatype Outcome = TransportFailure(reason: string) | Received(response: Response)

  /** The HTTP client as an oracle: the outcome of the k-th call of one `Do`, sending `req`. */
  type Client = (nat, Request) -> Outcome
}
