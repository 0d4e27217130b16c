/** Recorded interactions and the requests they are matched with. */
module Tapes {
  /** What a request shows to matchers. `headers` stands for the query, the host
      and the header fields; the body is its bytes. */
  datatype Request = Request(verb: string, path: string, body: string, headers: string)

  /** A response whose body has been read; `sse` is its content type being
      text/event-stream. */
  datatype Response = Response(status: int, body: string, sse: bool)

  /** A tape; `path` is the path of its recorded URL, `reqBody` the recorded request's
      body and `bodyHash` the hash the matcher compares. */
  datatype Tape = Tape(
    id: string, route: string, verb: string, path: string, reqBody: string, bodyHash: string,
    response: Response, exemplar: bool, urlPattern: string)
}
