/** The `Client` revision of the library: the client and its transport
    (client.go), the list iterator (iterator.go) and the branch operations
    (support.go). */
module ClientRevision {
  import opened Text
  import opened Http
  import opened Paging

  /** A client: the parsed endpoint and the Authorization header value. */
  datatype Client = Client(endpoint: Url, authorization: Bytes)

  /** `New`, given what `url.Parse(endpoint)` returned: the credential is stored
      behind "Basic " exactly as given, with no base64 check. */
  function New(parsed: Option<Url>, authorization: Bytes): (r: Result<Client>)
    ensures r.Err? <==> parsed.None?
    ensures r.Err? ==> r.error == ParseEndpointUrl
    ensures r.Ok? ==> r.value.endpoint == parsed.value
    ensures r.Ok? ==> r.value.authorization == Ascii("Basic ") + authorization
  {
    match parsed
    case None => Err(ParseEndpointUrl)
    case Some(u) => Ok(Client(u, Basic(authorization)))
  }

  /** The transport reads the status of the response it got even when the network
      failed, when there is none: a network failure of a request that was sent
      makes it panic, so callers must exclude it. */
  predicate NoPanic<T>(request: Payload, wire: Wire<T>)
  {
    wire.parses && Marshal(request).Some? ==> wire.reply.Response?
  }

  /** The headers `do` sets: the stored Authorization and Accept, no Content-Type. */
  function RequestHeaders(c: Client): Headers
  {
    Headers(c.authorization, Some("application/json"), None)
  }

  /** `do`: one request, decoded into a non-nil destination. It stops at the first
      of four failures, in this order, each giving status 400 and an error; past
      them it returns the server's status, whatever it is, and no error. */
  function Do<T>(c: Client, verb: Method, url: Url, request: Payload, wire: Wire<T>): (t: Trip<T>)
    requires NoPanic(request, wire)
    ensures t.sent.Some? <==> wire.parses && Marshal(request).Some?
    ensures t.sent.Some? ==> t.sent.value == Request(verb, url, RequestHeaders(c), Marshal(request).value)
    ensures !wire.parses ==> t.result == Failed(StatusBadRequest, UrlParse)
    ensures wire.parses && Marshal(request).None? ==> t.result == Failed(StatusBadRequest, EncodingRequestBody(verb, url))
    ensures t.sent.Some? && wire.decoded.None? ==> t.result == Failed(StatusBadRequest, DecodingResponseBody(verb, url))
    ensures t.result.Failed? ==> t.result.status == StatusBadRequest
    ensures t.result.Completed? <==> t.sent.Some? && wire.decoded.Some?
    ensures t.result.Completed? ==> t.result.status == wire.reply.status && t.result.value == wire.decoded.value
  {
    if !wire.parses then Trip(None, Failed(StatusBadRequest, UrlParse))
    else
      match Marshal(request)
      case None => Trip(None, Failed(StatusBadRequest, EncodingRequestBody(verb, url)))
      case Some(body) =>
        var sent := Some(Request(verb, url, RequestHeaders(c), body));
        match wire.decoded
        case None => Trip(sent, Failed(StatusBadRequest, DecodingResponseBody(verb, url)))
        case Some(v) => Trip(sent, Completed(wire.reply.status, v))
  }

  lemma BranchesPath()
    ensures Segments("branches") == ["branches"]
  {
    SegmentsOfName("branches");
  }

  lemma IdPath(id: string)
    ensures Segments("id/" + id) == ["id"] + Segments(id)
  {
    assert "id/" + id == "id" + "/" + id;
    SegmentsUnder("id", id);
  }

  lemma BranchPath(id: string)
    ensures Segments("branches/id/" + id) == ["branches", "id"] + Segments(id)
  {
    assert "branches/id/" + id == "branches" + "/" + ("id/" + id);
    SegmentsUnder("branches", "id/" + id);
    IdPath(id);
  }

  /** The URL `GetBranch` requests: `branches/id/<id>` under the endpoint path. */
  function BranchUrl(endpoint: Url, id: string): (u: Url)
    ensures u == endpoint.(path := endpoint.path + ["branches", "id"] + Segments(id))
  {
    BranchPath(id);
    endpoint.(path := Join(endpoint.path, "branches/id/" + id))
  }

  /** `GetBranch`: only the transport can make it fail; the response status is
      never looked at, so any status with a decodable body is a success. */
  function GetBranch<B>(c: Client, id: string, wire: Wire<B>): (r: Result<B>)
    requires NoPanic(NoPayload, wire)
    ensures r.Ok? <==> wire.parses && wire.decoded.Some?
    ensures r.Ok? ==> r.value == wire.decoded.value
    ensures r.Err? ==> r.error == Do(c, GET, BranchUrl(c.endpoint, id), NoPayload, wire).result.error
  {
    match Do(c, GET, BranchUrl(c.endpoint, id), NoPayload, wire).result
    case Failed(_, e) => Err(e)
    case Completed(_, b) => Ok(b)
  }

  /** The method and URL `SaveBranch` uses: POST to `branches` to create, PUT to
      `branches/id/<ID>` to update. */
  function SaveBranchTarget(endpoint: Url, id: string): (t: (Method, Url))
    ensures id == "" ==> t == (POST, endpoint.(path := endpoint.path + ["branches"]))
    ensures id != "" ==> t == (PUT, endpoint.(path := endpoint.path + ["branches", "id"] + Segments(id)))
  {
    if id == "" then
      BranchesPath();
      (POST, endpoint.(path := Join(endpoint.path, "branches")))
    else
      BranchesPath();
      IdPath(id);
      assert endpoint.path + ["branches"] + (["id"] + Segments(id)) == endpoint.path + ["branches", "id"] + Segments(id);
      (PUT, endpoint.(path := Join(Join(endpoint.path, "branches"), "id/" + id)))
  }

  /** `SaveBranch` of a branch with ID `id` whose JSON encoding succeeds when
      `encodable` holds: a transport error is returned as it is; 200 and 201 are
      success and return the ID that was passed in (so a create returns ""); any
      other status is an error carrying the status. */
  function SaveBranch<B>(c: Client, id: string, encodable: bool, wire: Wire<B>): (r: Result<string>)
    requires NoPanic(Payload(encodable), wire)
    ensures var x := Do(c, SaveBranchTarget(c.endpoint, id).0, SaveBranchTarget(c.endpoint, id).1, Payload(encodable), wire).result;
      && (x.Failed? ==> r == Err(x.error))
      && (r.Ok? <==> x.Completed? && x.status in {StatusOK, StatusCreated})
      && (r.Ok? ==> r.value == id)
      && (x.Completed? && x.status !in {StatusOK, StatusCreated} ==> r == Err(StatusOnly(x.status)))
  {
    var (verb, url) := SaveBranchTarget(c.endpoint, id);
    match Do(c, verb, url, Payload(encodable), wire).result
    case Failed(_, e) => Err(e)
    case Completed(status, _) =>
      if status == StatusCreated || status == StatusOK then Ok(id)
      else Err(StatusOnly(status))
  }

  /** A list iterator over one resource; `BranchIterator` is this iterator with
      the `Branch` method added. */
  class ListIterator {
    const client: Client
    const resource: string
    var start: uint64
    var pageSize: uint64
    var more: bool
    var data: seq<Raw>

    /** The cursor this iterator's fields make up. */
    function State(): Cursor
      reads this
    {
      Cursor(start, pageSize, more, data)
    }

    /** `Client.list`: a fresh iterator for `resource`. */
    constructor List(client: Client, resource: string)
      ensures this.client == client && this.resource == resource
      ensures State() == Initial()
      ensures more && data == [] && start == 0 && pageSize == 0
    {
      this.client := client;
      this.resource := resource;
      start, pageSize := 0, 0;
      more := true;
      data := [];
    }

    /** `decode`: the front element, decoded by `unmarshal`, is removed only when
        it decodes; an empty buffer is the "no data" error. */
    method Decode<T>(unmarshal: Raw -> Option<T>) returns (r: Result<T>)
      modifies this`data
      ensures (State(), r) == Take(old(State()), unmarshal)
    {
      if |data| == 0 {
        return Err(NoData);
      }
      match unmarshal(data[0])
      case Some(v) =>
        data := data[1..];
        r := Ok(v);
      case None =>
        r := Err(Unmarshal);
    }

    /** The URL of the page request this iterator makes. */
    function PageRequest(): Url
      reads this
    {
      PageUrl(client.endpoint, resource, Offset(start, pageSize))
    }

    /** `More`: fetches a page only when the buffer is empty and more is expected,
        with `wire` the outside world's answers to that request. */
    method More(wire: Wire<seq<Raw>>) returns (ok: bool)
      requires NoPanic(NoPayload, wire)
      modifies this`data, this`more
      ensures (State(), ok) == Poll(old(State()), Do(client, GET, old(PageRequest()), NoPayload, wire).result)
    {
      if |data| == 0 && more {
        var url := PageUrl(client.endpoint, resource, Offset(start, pageSize));
        var trip := Do(client, GET, url, NoPayload, wire);
        if trip.result.Failed? {
          return false;
        }
        data := trip.result.value;
        more := trip.result.status == StatusPartialContent;
      }
      ok := |data| > 0;
    }

    /** `BranchIterator.Branch`: decodes the `id` of the front element and, only if
        that succeeds, gets that branch; a decode failure is returned as it is and
        leaves the element buffered. */
    method Branch<B>(readId: Raw -> Option<string>, wire: Wire<B>) returns (r: Result<B>)
      requires NoPanic(NoPayload, wire)
      modifies this`data
      ensures var (c, d) := Take(old(State()), readId);
        && State() == c
        && (d.Err? ==> r == Err(d.error))
        && (d.Ok? ==> r == GetBranch(client, d.value, wire))
    {
      var d := Decode(readId);
      if d.Err? {
        return Err(d.error);
      }
      r := GetBranch(client, d.value, wire);
    }
  }

  /** `ListBranches`: a fresh iterator over the `branches` resource. */
  method ListBranches(c: Client) returns (it: ListIterator)
    ensures fresh(it)
    ensures it.client == c && it.resource == "branches" && it.State() == Initial()
  {
    it := new ListIterator.List(c, "branches");
  }
}
