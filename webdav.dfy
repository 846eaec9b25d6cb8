/** The WebDAV client of the `RestClient` revision (webdav.go): its constructor,
    which normalises the credential as the REST client does, and `Put`, which
    uploads a file to a path that may carry a query after a '?'. */
module Webdav {
  import opened Text
  import opened Http
  import opened Base64

  datatype WebdavClient = WebdavClient(endpoint: Url, authorization: Bytes)

  /** `NewWebdavClient`, given what `url.Parse(endpoint)` returned. */
  function NewWebdavClient(parsed: Option<Url>, authorization: Bytes): (r: Result<WebdavClient>)
    ensures r.Err? <==> parsed.None?
    ensures r.Err? ==> r.error == ParseEndpointUrl
    ensures r.Ok? ==> r.value.endpoint == parsed.value
    ensures r.Ok? ==> r.value.authorization == Credential(authorization)
  {
    match parsed
    case None => Err(ParseEndpointUrl)
    case Some(u) => Ok(WebdavClient(u, Credential(authorization)))
  }

  /** What `strings.Split(s, "?")` yields, in terms of the text before a '?': the
      first piece is the text before the first '?', there is a second piece
      exactly when there is a '?', and it is the text between the first '?' and
      the next one. */
  lemma QueryPieces(s: string)
    ensures var parts := SplitOn(s, '?');
      && parts[0] == Before(s, '?')
      && (|parts| > 1 <==> '?' in s)
      && ('?' in s ==> parts[1] == Before(s[|Before(s, '?')| + 1..], '?'))
  {
    FirstPieceIsBefore(s, '?');
    var i := |Before(s, '?')|;
    if '?' in s {
      assert i < |s|;
      SplitAtFirst(s, '?', i);
      FirstPieceIsBefore(s[i + 1..], '?');
    } else {
      SplitFree(s, '?');
    }
  }

  /** The request `Put` sends for `filepath`: a PUT of the file stream, with the
      text before the first '?' joined onto the endpoint path and, when there is a
      '?', the text up to the next '?' as the whole query (anything after a second
      '?' is dropped); with no '?' the endpoint's own query stays. */
  function PutRequest(wc: WebdavClient, filepath: string): (req: Request)
    ensures req.verb == PUT && req.body == FileStream
    ensures req.headers == Headers(wc.authorization, None, Some("binary/octet-stream"))
    ensures req.url.origin == wc.endpoint.origin
    ensures req.url.path == wc.endpoint.path + Segments(Before(filepath, '?'))
    ensures '?' !in filepath ==> req.url.rawQuery == wc.endpoint.rawQuery
    ensures '?' in filepath ==> req.url.rawQuery == Before(filepath[|Before(filepath, '?')| + 1..], '?')
  {
    QueryPieces(filepath);
    var parts := SplitOn(filepath, '?');
    var located := wc.endpoint.(path := Join(wc.endpoint.path, parts[0]));
    var url := if |parts| > 1 then located.(rawQuery := parts[1]) else located;
    Request(PUT, url, Headers(wc.authorization, None, Some("binary/octet-stream")), FileStream)
  }

  /** `Put`, given the server's reply (a network failure makes the code read the
      status of a response it does not have, so it is excluded): 200, 201 and 204
      are success, any other status is the "put" error. */
  function Put(wc: WebdavClient, filepath: string, reply: NetReply): (r: Option<Error>)
    requires reply.Response?
    ensures r.None? <==> reply.status in {StatusOK, StatusCreated, StatusNoContent}
    ensures r.Some? ==> r.value == UnexpectedStatus(reply.status, "put", PutRequest(wc, filepath).url)
  {
    var status := reply.status;
    if status == StatusOK || status == StatusCreated || status == StatusNoContent then None
    else Some(UnexpectedStatus(status, "put", PutRequest(wc, filepath).url))
  }

  /** With a single '?', nothing of the file path is lost: it is the text joined
      onto the path, a '?' and the query. */
  lemma SingleQueryKept(wc: WebdavClient, filepath: string)
    requires '?' in filepath
    requires '?' !in filepath[|Before(filepath, '?')| + 1..]
    ensures var url := PutRequest(wc, filepath).url;
      filepath == Before(filepath, '?') + "?" + url.rawQuery
  {
  }

  /** With a second '?', the text from it on reaches neither the path nor the query. */
  lemma SecondQueryDropped(wc: WebdavClient, filepath: string, j: nat)
    requires '?' in filepath
    requires var i := |Before(filepath, '?')|; i < j < |filepath| && filepath[j] == '?'
    ensures var url := PutRequest(wc, filepath).url;
      |Before(filepath, '?')| + 1 + |url.rawQuery| <= j
  {
  }
}
