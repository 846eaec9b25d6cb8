/** How the two revisions of the client relate: the same transport outcome for
    the same answers from the outside world, and the same stored credential
    exactly when the token is already standard base64. */
module Revisions {
  import opened Http
  import opened Base64
  import ClientRevision
  import RestRevision

  /** Given the same answers, the two transports reach the same outcome, and the
      request the REST one sends differs only by its Content-Type header. */
  lemma TransportsAgree<T>(c: ClientRevision.Client, rc: RestRevision.RestClient, verb: Method, url: Url, request: Payload, wire: Wire<T>)
    requires c.authorization == rc.authorization
    requires ClientRevision.NoPanic(request, wire)
    ensures var a := ClientRevision.Do(c, verb, url, request, wire);
      var b := RestRevision.Do(rc, verb, url, request, Pointer, wire);
      && a.result == b.result
      && a.sent.Some? == b.sent.Some?
      && (a.sent.Some? ==> b.sent.value == a.sent.value.(headers := a.sent.value.headers.(contentType := Some("application/json;charset=utf-8"))))
  {
  }

  /** The revisions store the same Authorization value exactly when the token
      already decodes as standard base64. */
  lemma CredentialsAgree(parsed: Url, token: Bytes)
    ensures var a := ClientRevision.New(Some(parsed), token).value.authorization;
      var b := RestRevision.NewRestClient(Some(parsed), token).value.authorization;
      a == b <==> Decode(token).Some?
  {
  }
}
