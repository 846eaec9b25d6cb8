/** The values every layer of the client shares: bytes, URLs with their paths
    as segments, the request that goes on the wire, what the outside world
    answers (the `Wire` oracle), the outcome of one transport call and the
    errors the library returns. */
module Http {
  import opened Text

  type byte = b: int | 0 <= b < 256
  type Bytes = seq<byte>
  type uint64 = n: int | 0 <= n < 0x1_0000_0000_0000_0000

  datatype Option<+T> = None | Some(value: T)

  /** The success-or-error result of an operation that produces a value. */
  datatype Result<+T> = Ok(value: T) | Err(error: Error)

  /** The errors the library returns, one constructor per place that makes one. */
  datatype Error =
    | ParseEndpointUrl                                 // constructor: the endpoint did not parse ("parse endpoint url")
    | UrlParse                                         // transport: the request URI did not parse (returned unwrapped)
    | EncodingRequestBody(verb: Method, url: Url)    // transport: "<method> <uri> encoding request body"
    | RoundTrip(verb: Method, url: Url)              // transport: network failure or timeout, "<method> <uri>"
    | DecodingResponseBody(verb: Method, url: Url)   // transport: "<method> <uri> decoding response body"
    | UnexpectedStatus(status: int, op: string, url: Url)  // "<status text> <op> <uri>"
    | StatusOnly(status: int)                          // "<status text>"
    | NoData                                           // iterator: "no data"
    | Unmarshal                                        // iterator: the buffered element did not decode

  datatype Method = GET | POST | PUT | DELETE

  /** A parsed URL: scheme, user and host are kept together and opaque, the path
      is its sequence of segments, and the raw query is kept as Go keeps it
      (the empty string when there is none). */
  datatype Url = Url(origin: string, path: seq<string>, rawQuery: string)

  /** `path.Join(p, elem)` on a segment path: the segments of `elem` are appended. */
  function Join(p: seq<string>, elem: string): seq<string>
  {
    p + Segments(elem)
  }

  const StatusOK := 200
  const StatusCreated := 201
  const StatusNoContent := 204
  const StatusPartialContent := 206
  const StatusBadRequest := 400

  /** The bytes of an ASCII string literal. */
  function Ascii(s: string): (b: Bytes)
    requires forall i :: 0 <= i < |s| ==> s[i] as int < 128
    ensures |b| == |s| && forall i :: 0 <= i < |s| ==> b[i] == s[i] as int
    decreases |s|
  {
    if s == [] then [] else [s[0] as int] + Ascii(s[1..])
  }

  /** The value of an Authorization header: "Basic " followed by the token. */
  function Basic(token: Bytes): Bytes
  {
    Ascii("Basic ") + token
  }

  /** The headers the library sets; a header it does not set is `None`. */
  datatype Headers = Headers(authorization: Bytes, accept: Option<string>, contentType: Option<string>)

  /** What is sent as the request body: the JSON text of a Go nil (`null`), the
      JSON encoding of a value, or a caller's file stream. */
  datatype Body = JsonNull | JsonDocument | FileStream

  /** One HTTP request as it leaves the client. */
  datatype Request = Request(verb: Method, url: Url, headers: Headers, body: Body)

  /** The `request` argument of the transport: nil, or a value whose JSON
      encoding succeeds exactly when `encodable` holds. */
  datatype Payload = NoPayload | Payload(encodable: bool)

  /** `json.Marshal` of a payload: nil always encodes, as `null`. */
  function Marshal(p: Payload): (body: Option<Body>)
    ensures body.None? <==> p.Payload? && !p.encodable
    ensures p.NoPayload? ==> body == Some(JsonNull)
  {
    match p
    case NoPayload => Some(JsonNull)
    case Payload(encodable) => if encodable then Some(JsonDocument) else None
  }

  /** The `response` argument of the transport: nil, or a pointer to decode into. */
  datatype Destination = Nil | Pointer

  /** What the network does with a request: it fails (an error or a timeout),
      or the server answers with a status code. */
  datatype NetReply = NetworkError | Response(status: int)

  /** The outside world's answers to one transport call: whether the URI string
      parses, what the network replies, and what the response body decodes to
      when decoded into a non-nil destination (`None`: the body does not decode). */
  datatype Wire<T> = Wire(parses: bool, reply: NetReply, decoded: Option<T>)

  /** The `(status, error)` pair the transport returns, with the decoded
      response body in the success case. */
  datatype Exchange<T> =
    | Failed(status: int, error: Error)
    | Completed(status: int, value: T)

  /** One transport call: the request it put on the wire, if any, and its outcome. */
  datatype Trip<T> = Trip(sent: Option<Request>, result: Exchange<T>)
}
