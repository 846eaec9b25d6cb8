/** The `RestClient` revision of the library (rest.go): the client with its
    credential normalisation, the transport, the generic get/save/delete
    operations and the list iterator. */
module RestRevision {
  import opened Text
  import opened Http
  import opened Paging
  import opened Base64

  /** A REST client: the parsed endpoint and the Authorization header value. */
  datatype RestClient = RestClient(endpoint: Url, authorization: Bytes)

  /** `NewRestClient`, given what `url.Parse(endpoint)` returned: a token that is
      not standard base64 is encoded first, then stored behind "Basic ". */
  function NewRestClient(parsed: Option<Url>, authorization: Bytes): (r: Result<RestClient>)
    ensures r.Err? <==> parsed.None?
    ensures r.Err? ==> r.error == ParseEndpointUrl
    ensures r.Ok? ==> r.value.endpoint == parsed.value
    ensures r.Ok? ==> r.value.authorization == Credential(authorization)
  {
    match parsed
    case None => Err(ParseEndpointUrl)
    case Some(u) => Ok(RestClient(u, Credential(authorization)))
  }

  /** The headers `do` sets: the stored Authorization, Accept and a JSON Content-Type. */
  function RequestHeaders(rc: RestClient): Headers
  {
    Headers(rc.authorization, Some("application/json"), Some("application/json;charset=utf-8"))
  }

  /** `do`: one request, whose response body is decoded into `into`. It stops at
      the first of five failures, in this order, each giving status 400 and an
      error: the URI does not parse, the request does not encode, the network
      fails, the destination is nil (Go's JSON decoder refuses it, whatever the
      body), the body does not decode. Past them it returns the server's status,
      whatever it is, and no error. */
  function Do<T>(rc: RestClient, verb: Method, url: Url, request: Payload, into: Destination, wire: Wire<T>): (t: Trip<T>)
    ensures t.sent.Some? <==> wire.parses && Marshal(request).Some?
    ensures t.sent.Some? ==> t.sent.value == Request(verb, url, RequestHeaders(rc), Marshal(request).value)
    ensures !wire.parses ==> t.result == Failed(StatusBadRequest, UrlParse)
    ensures wire.parses && Marshal(request).None? ==> t.result == Failed(StatusBadRequest, EncodingRequestBody(verb, url))
    ensures t.sent.Some? && wire.reply.NetworkError? ==> t.result == Failed(StatusBadRequest, RoundTrip(verb, url))
    ensures t.sent.Some? && wire.reply.Response? && (into.Nil? || wire.decoded.None?) ==>
      t.result == Failed(StatusBadRequest, DecodingResponseBody(verb, url))
    ensures t.result.Failed? ==> t.result.status == StatusBadRequest
    ensures t.result.Completed? <==> t.sent.Some? && wire.reply.Response? && into.Pointer? && wire.decoded.Some?
    ensures t.result.Completed? ==> t.result.status == wire.reply.status && t.result.value == wire.decoded.value
  {
    if !wire.parses then Trip(None, Failed(StatusBadRequest, UrlParse))
    else
      match Marshal(request)
      case None => Trip(None, Failed(StatusBadRequest, EncodingRequestBody(verb, url)))
      case Some(body) =>
        var sent := Some(Request(verb, url, RequestHeaders(rc), body));
        match wire.reply
        case NetworkError => Trip(sent, Failed(StatusBadRequest, RoundTrip(verb, url)))
        case Response(status) =>
          if into.Nil? || wire.decoded.None? then Trip(sent, Failed(StatusBadRequest, DecodingResponseBody(verb, url)))
          else Trip(sent, Completed(status, wire.decoded.value))
  }

  /** The URL get, save and delete address: the resource under the endpoint path,
      then `id/<id>` only when the ID is not empty. */
  function ResourceUrl(endpoint: Url, resource: string, id: string): (u: Url)
    ensures u.origin == endpoint.origin && u.rawQuery == endpoint.rawQuery
    ensures id == "" ==> u.path == endpoint.path + Segments(resource)
    ensures id != "" ==> u.path == endpoint.path + Segments(resource) + ["id"] + Segments(id)
  {
    var p := Join(endpoint.path, resource);
    if id == "" then endpoint.(path := p)
    else
      SegmentsOfName("id");
      endpoint.(path := Join(Join(p, "id"), id))
  }

  /** `get`: a GET with no body, decoded into the caller's destination. Only
      status 200 is success; any other completed status is an error whose text
      names the operation "delete", as the code has it. */
  function Get<T>(rc: RestClient, resource: string, id: string, wire: Wire<T>): (r: Result<T>)
    ensures r.Ok? <==> wire.parses && wire.reply == Response(StatusOK) && wire.decoded.Some?
    ensures r.Ok? ==> r.value == wire.decoded.value
    ensures var url := ResourceUrl(rc.endpoint, resource, id);
      var x := Do(rc, GET, url, NoPayload, Pointer, wire).result;
      && (x.Failed? ==> r == Err(x.error))
      && (x.Completed? && x.status != StatusOK ==> r == Err(UnexpectedStatus(x.status, "delete", url)))
  {
    var url := ResourceUrl(rc.endpoint, resource, id);
    match Do(rc, GET, url, NoPayload, Pointer, wire).result
    case Failed(_, e) => Err(e)
    case Completed(status, v) =>
      if status == StatusOK then Ok(v) else Err(UnexpectedStatus(status, "delete", url))
  }

  /** `save`: always a POST, with or without an ID, of a request whose encoding
      succeeds when `encodable` holds; 200 and 201 are success. */
  function Save<T>(rc: RestClient, resource: string, id: string, encodable: bool, wire: Wire<T>): (r: Result<T>)
    ensures r.Ok? <==>
      wire.parses && encodable && wire.reply.Response? && wire.reply.status in {StatusOK, StatusCreated} && wire.decoded.Some?
    ensures r.Ok? ==> r.value == wire.decoded.value
    ensures var url := ResourceUrl(rc.endpoint, resource, id);
      var x := Do(rc, POST, url, Payload(encodable), Pointer, wire).result;
      && (x.Failed? ==> r == Err(x.error))
      && (x.Completed? && x.status !in {StatusOK, StatusCreated} ==> r == Err(UnexpectedStatus(x.status, "save", url)))
  {
    var url := ResourceUrl(rc.endpoint, resource, id);
    match Do(rc, POST, url, Payload(encodable), Pointer, wire).result
    case Failed(_, e) => Err(e)
    case Completed(status, v) =>
      if status == StatusCreated || status == StatusOK then Ok(v)
      else Err(UnexpectedStatus(status, "save", url))
  }

  /** `delete` as written: a DELETE with no body whose response is decoded into a
      nil destination. Go's decoder rejects a nil destination on every response,
      so the call never succeeds: past the transport failures every reply, 200
      included, ends in the decoding error, and the status check is unreachable. */
  function Delete<T>(rc: RestClient, resource: string, id: string, wire: Wire<T>): (r: Option<Error>)
    ensures r.Some?
    ensures var url := ResourceUrl(rc.endpoint, resource, id);
      && (!wire.parses ==> r == Some(UrlParse))
      && (wire.parses && wire.reply.NetworkError? ==> r == Some(RoundTrip(DELETE, url)))
      && (wire.parses && wire.reply.Response? ==> r == Some(DecodingResponseBody(DELETE, url)))
  {
    var url := ResourceUrl(rc.endpoint, resource, id);
    match Do(rc, DELETE, url, NoPayload, Nil, wire).result
    case Failed(_, e) => Some(e)
    case Completed(status, _) =>
      if status == StatusOK then None else Some(UnexpectedStatus(status, "delete", url))
  }

  /** The answers a destination that discards the response body sees: every
      body, an empty one included, is accepted. */
  function Drained<T>(wire: Wire<T>): (w: Wire<()>)
    ensures w.parses == wire.parses && w.reply == wire.reply && w.decoded.Some?
  {
    Wire(wire.parses, wire.reply, Some(()))
  }

  /** `delete` as evidently intended: the response body is discarded instead of
      decoded, so the status decides; 200 is success, whatever the body, and any
      other status is the "delete" error. */
  function DeleteIntended<T>(rc: RestClient, resource: string, id: string, wire: Wire<T>): (r: Option<Error>)
    ensures r.None? <==> wire.parses && wire.reply == Response(StatusOK)
    ensures var url := ResourceUrl(rc.endpoint, resource, id);
      && (!wire.parses ==> r == Some(UrlParse))
      && (wire.parses && wire.reply.NetworkError? ==> r == Some(RoundTrip(DELETE, url)))
      && (wire.parses && wire.reply.Response? && wire.reply.status != StatusOK ==>
            r == Some(UnexpectedStatus(wire.reply.status, "delete", url)))
  {
    var url := ResourceUrl(rc.endpoint, resource, id);
    match Do(rc, DELETE, url, NoPayload, Pointer, Drained(wire)).result
    case Failed(_, e) => Some(e)
    case Completed(status, _) =>
      if status == StatusOK then None else Some(UnexpectedStatus(status, "delete", url))
  }

  /** The discrepancy on one input: a server that answers 200 with an empty body
      is refused by `delete` and accepted by the intended version. */
  lemma DeleteRefusesSuccess(rc: RestClient, resource: string, id: string)
    ensures var wire: Wire<()> := Wire(true, Response(StatusOK), None);
      Delete(rc, resource, id, wire) == Some(DecodingResponseBody(DELETE, ResourceUrl(rc.endpoint, resource, id)))
      && DeleteIntended(rc, resource, id, wire) == None
  {
  }

  /** The list iterator of this revision; its `Next` is `More` of the other. */
  class ListIterator {
    const client: RestClient
    const resource: string
    var start: uint64
    var pageSize: uint64
    var more: bool
    var data: seq<Raw>

    /** The cursor this iterator's fields make up. */
    function State(): Cursor
      reads this
    {
      Cursor(start, pageSize, more, data)
    }

    /** `RestClient.list`: a fresh iterator for `resource`. */
    constructor List(client: RestClient, resource: string)
      ensures this.client == client && this.resource == resource
      ensures State() == Initial()
      ensures more && data == [] && start == 0 && pageSize == 0
    {
      this.client := client;
      this.resource := resource;
      start, pageSize := 0, 0;
      more := true;
      data := [];
    }

    /** `decode`: pops the front element when `unmarshal` accepts it; an empty
        buffer is the "no data" error and a rejected element stays in place. */
    method Decode<T>(unmarshal: Raw -> Option<T>) returns (r: Result<T>)
      modifies this`data
      ensures (State(), r) == Take(old(State()), unmarshal)
    {
      if |data| == 0 {
        r := Err(NoData);
      } else {
        var front := unmarshal(data[0]);
        if front.Some? {
          data := data[1..];
          r := Ok(front.value);
        } else {
          r := Err(Unmarshal);
        }
      }
    }

    /** The URL of the page request this iterator makes. */
    function PageRequest(): Url
      reads this
    {
      PageUrl(client.endpoint, resource, Offset(start, pageSize))
    }

    /** `Next`: a page is fetched, decoded into the buffer itself, only when the
        buffer is empty and more is expected; `wire` is the outside world's
        answers to that request. */
    method Next(wire: Wire<seq<Raw>>) returns (ok: bool)
      modifies this`data, this`more
      ensures (State(), ok) == Poll(old(State()), Do(client, GET, old(PageRequest()), NoPayload, Pointer, wire).result)
    {
      if |data| == 0 && more {
        var url := PageUrl(client.endpoint, resource, Offset(start, pageSize));
        var trip := Do(client, GET, url, NoPayload, Pointer, wire);
        match trip.result
        case Failed(_, _) =>
          return false;
        case Completed(status, page) =>
          data := page;
          more := status == StatusPartialContent;
      }
      ok := |data| > 0;
    }
  }
}
