/** The boundary to the HTTP library: the requests the client puts on the wire,
    the responses it gets back, and a transport that records every request. */
module Http {
  import opened Py

  /** An open binary file object, known only by identity. */
  datatype FileHandle = FileHandle(id: nat)

  /** One `files` entry of a multipart body: `(field_name, (filename, fileobj))`. */
  datatype FilePart = FilePart(field: string, filename: string, handle: FileHandle)

  datatype Payload =
    | NoPayload
    | JsonText(text: string)                                    // `data=json_body`
    | Form(fields: map<string, Json>, files: seq<FilePart>)     // `data=..., files=...`

  datatype HttpRequest = HttpRequest(
    verb: string,
    url: string,
    headers: map<string, string>,
    payload: Payload,
    timeout: real,
    stream: bool)

  /** A response: status, raw body bytes, and the body decoded as JSON (`None`
      when `response.json()` would raise). */
  datatype HttpResponse = HttpResponse(status: int, content: seq<byte>, json: Option<Json>)

  /** The client's HTTP session. The remote service is an oracle `serve` that
      may answer according to every request it has already received; `history`
      records the requests in the order they were sent. */
  class Transport {
    const serve: (seq<HttpRequest>, HttpRequest) -> HttpResponse
    var history: seq<HttpRequest>

    constructor (serve: (seq<HttpRequest>, HttpRequest) -> HttpResponse)
      ensures this.serve == serve && history == []
    {
      this.serve := serve;
      history := [];
    }

    /** `session.request(...)`: one round trip. */
    method Request(req: HttpRequest) returns (resp: HttpResponse)
      modifies this
      ensures history == old(history) + [req]
      ensures resp == serve(old(history), req)
    {
      resp := serve(history, req);
      history := history + [req];
    }
  }
}
