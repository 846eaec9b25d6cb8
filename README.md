# topdesk-go: the paging client, in Dafny

This project models the core of topdesk-go, a Go client for the TOPdesk REST
API, and proves properties of the model. The repository holds two revisions of
that client, which cannot be compiled together; each has its own module here.

- `ClientRevision` (client.go, iterator.go, support.go): `New`, the transport
  `do`, the list iterator (`list`, `decode`, `More`) and the branch operations
  (`ListBranches`, `BranchIterator.Branch`, `GetBranch`, `SaveBranch`).
- `RestRevision` (rest.go): `NewRestClient`, the transport `do`, the generic
  `get`, `save` and `delete`, and the list iterator (`list`, `decode`, `Next`).
- `Webdav` (webdav.go): `NewWebdavClient` and `Put`.

Some modules are shared by both revisions:

- `Paging` holds the cursor machine behind both iterators. `Poll` is one
  `More`/`Next` call and `Take` is one `decode` call. `Replay` follows a cursor
  through any sequence of calls, and the ordering, exhaustion and offset
  lemmas are stated about it. Each iterator class is a `class` whose fields are
  the Go struct's fields. Its methods are specified by `Poll` and `Take` applied
  to the cursor the fields make up.
- `Http` holds the shared values: requests, headers, errors, and the URL. A URL
  path is a sequence of segments, and the raw query is a string (empty when
  there is none).
- `Text` holds `strings.Split` and the segments `path.Join` keeps.
- `Base64` holds the standard encoding of section 4 of RFC 4648, as Go's
  non-strict `StdEncoding` decoder accepts it, and the credential
  normalisation.
- `Revisions` relates the two revisions to each other.

Everything the code asks of the outside world is an argument.

- A transport call is given a `Wire`, which says three things:
  - whether the request URI parses;
  - what the network answers: a failure, or a status code;
  - what the response body decodes to.
- A `decode` is given the unmarshalling of the front element as a function.

The model follows the code wherever the code and its documentation disagree:

- Nothing ever writes `start` or `pageSize`. Every page request therefore asks
  for `page_size=100&start=0` (`Paging.EveryRequestStartsAtZero`).
- A failed fetch leaves `more` as it was. The next poll asks for the same page
  again rather than ending the iteration (`Paging.FailureIsRetried`).
- `do` classifies no status codes. Any status with a decodable body is a
  completed exchange, and only the callers look at the status.
- The REST transport sends `Content-Type: application/json;charset=utf-8`. The
  `Client` transport sends no Content-Type.
- The REST `get` reports an unexpected status with the text of a "delete"
  error (rest.go:97). The model keeps that text.

## Model

| member | source | states |
|---|---|---|
| `Text.SplitOn` | webdav.go:45 | `strings.Split`: at least one piece, and no piece contains the separator; `Text.JoinSplit` shows that nothing is lost |
| `Text.JoinSplit` | webdav.go:45 | splitting on a separator loses nothing: joining the pieces with it gives the input back |
| `Text.Decimal` | iterator.go:62 | the offset is written in decimal: digits only, exactly "0" for 0 and no leading zero otherwise, and the digits denote the offset (`Value(Decimal(n)) == n`) |
| `Base64.Encode` | rest.go:33 | `EncodeToString`: every three bytes become four characters and a final one or two bytes are padded to four, so the length is `(n + 2) / 3 * 4`; `Base64.DecodeEncode` is its inverse |
| `Base64.Decode` | rest.go:32 | `DecodeString`: line breaks aside, it succeeds exactly on well-formed standard text (`WellFormed`: whole groups of alphabet characters, '=' only in the last two places and never followed by anything but '='), each group giving three bytes except that the last may give one or two |
| `Base64.DecodeGroupsAccepts` | rest.go:32 | the decoder refuses a byte outside the alphabet, a '=' before the last two places and a character after padding, and accepts every other well-formed text: `DecodeGroups(t).Some? <==> WellFormed(t)` |
| `Base64.EncodeCanonical` | rest.go:33 | `EncodeToString` writes the canonical standard form: well-formed, no '=' when the length is a multiple of three, "==" after one leftover byte and "=" after two, with the unfilled bits of the last character zero |
| `Base64.DecodeEncode` | rest.go:33 | whatever the encoder produces, the decoder accepts and decodes back to the input |
| `Base64.Normalize` | rest.go:32-34 | a token that decodes is kept; any other token is replaced by exactly its standard encoding `Encode(token)`, which decodes back to it; the result always decodes |
| `Base64.NormalizeIdempotent` | rest.go:32-34 | normalising an already normalised token changes nothing |
| `Base64.Credential` | rest.go:32-38 | the stored value is "Basic " followed by a token that decodes: the input when it decodes, otherwise exactly its standard encoding `Encode(token)` |
| `Base64.CredentialStable` | rest.go:32-38 | building a client from the token it stores gives the same stored value |
| `Base64.CredentialRewrites` | rest.go:32-38 | a token that does not decode is never stored as it was given |
| `Paging.Offset` | iterator.go:55-58 | the offset is 0 while `start` is 0, and `start + pageSize` with unsigned 64-bit wrap-around otherwise; `Paging.OffsetNeverAdvances` shows it never changes |
| `Paging.PageUrl` | iterator.go:52-63 | a page request joins the resource onto the endpoint path and replaces the query with the page query `PageQuery(offset)`, `page_size=100&start=<offset>` |
| `Paging.PageQueryNamesOffset` | iterator.go:60-63 | the page query determines the offset: two page requests have the same query exactly when their offsets are equal |
| `Paging.Poll` | iterator.go:50-73 | a poll fetches only when the buffer is empty and more is expected; a failed fetch changes nothing and answers false; a completed fetch makes the page the buffer and sets `more` to whether the status was 206; the answer is whether the buffer is non-empty; the counters never change |
| `Paging.Take` | iterator.go:35-48 | an empty buffer is the "no data" error; the front element is removed exactly when it decodes, and the rest keeps its order; on any error the cursor is unchanged |
| `Paging.ReplayKeepsOrder` | iterator.go:43-46 | across any sequence of calls, the buffer followed by every fetched page equals the decoded elements followed by what is still buffered |
| `Paging.DeliveredInFetchOrder` | iterator.go:65 | from a fresh iterator, the decoded elements and then the buffered ones are the fetched pages concatenated in fetch order |
| `Paging.ExhaustedStaysExhausted` | iterator.go:51 | once the buffer is empty and no more is expected, every later call fetches nothing, decodes nothing, answers false and leaves the cursor alone |
| `Paging.OffsetNeverAdvances` | iterator.go:55-58 | no call changes `start` or `pageSize`, so every request asks for the offset of the first |
| `Paging.EveryRequestStartsAtZero` | iterator.go:55-63 | every page request of a fresh iterator is `page_size=100&start=0` |
| `Paging.FailureIsRetried` | iterator.go:65-68 | after a failed fetch, the next poll requests the same page again |
| `ClientRevision.New` | client.go:22-35 | fails, with "parse endpoint url", exactly when the endpoint does not parse; otherwise stores the endpoint and "Basic " followed by the credential exactly as given |
| `ClientRevision.Do` | client.go:37-70 | failures come in this order: the URI does not parse, the request does not encode, the body does not decode; each gives status 400 and an error; the request goes out only when the first two pass, with Authorization and Accept and no Content-Type; otherwise the server's status is returned whatever it is |
| `ClientRevision.BranchUrl` | support.go:35-36 | `GetBranch` addresses `branches/id/<id>` under the endpoint path |
| `ClientRevision.GetBranch` | support.go:34-41 | succeeds exactly when the transport completes, whatever the status; its error is the transport's |
| `ClientRevision.SaveBranchTarget` | support.go:44-51 | an empty ID is created with a POST to `branches`; any other ID is updated with a PUT to `branches/id/<ID>` |
| `ClientRevision.SaveBranch` | support.go:43-65 | a transport error is returned unchanged; 200 and 201 succeed and return the ID passed in (so "" after a create); any other status is an error carrying only the status |
| `ClientRevision.ListIterator.List` | iterator.go:14-22 | a fresh iterator expects more, has nothing buffered and both counters zero |
| `ClientRevision.ListIterator.Decode` | iterator.go:35-48 | the buffer and result are those of `Take` on the old cursor |
| `ClientRevision.ListIterator.More` | iterator.go:50-73 | the new fields and the answer are those of `Poll` on the old cursor and the transport's outcome for the page request |
| `ClientRevision.ListIterator.Branch` | support.go:24-32 | a decode failure is returned as it is, with no branch request and the element still buffered; otherwise the decoded ID is popped and its branch is fetched |
| `ClientRevision.ListBranches` | support.go:19-22 | returns a fresh iterator over `branches` |
| `RestRevision.NewRestClient` | rest.go:26-43 | fails exactly when the endpoint does not parse; otherwise stores the endpoint and the normalised credential |
| `RestRevision.Do` | rest.go:45-79 | failures come in this order: the URI does not parse, the request does not encode, the network fails, the destination is nil or the body does not decode; each gives status 400 and an error; the request carries Authorization, Accept and a JSON Content-Type; otherwise the server's status is returned whatever it is |
| `RestRevision.ResourceUrl` | rest.go:82-86 | the resource is appended to the endpoint path, then `id` and the ID only when the ID is not empty |
| `RestRevision.Get` | rest.go:81-99 | succeeds exactly when the request completes with status 200; a transport error is returned unchanged; any other status is the "delete" error for the URL |
| `RestRevision.Save` | rest.go:101-120 | always a POST; succeeds exactly when the request encodes and completes with 200 or 201; any other status is the "save" error |
| `RestRevision.Delete` | rest.go:122-140 | as written it never succeeds: every reply, a 200 included, ends in the decoding error |
| `RestRevision.DeleteIntended` | rest.go:134-139 | discarding the response body instead of decoding it, it succeeds exactly when the server answers 200, whatever the body; a transport failure is returned; any other status is the "delete" error |
| `RestRevision.DeleteRefusesSuccess` | rest.go:129 | a 200 reply with an empty body is refused by `delete` as written and accepted by the intended version |
| `RestRevision.ListIterator.List` | rest.go:142-150 | a fresh iterator expects more, has nothing buffered and both counters zero |
| `RestRevision.ListIterator.Decode` | rest.go:163-176 | the buffer and result are those of `Take` on the old cursor |
| `RestRevision.ListIterator.Next` | rest.go:178-201 | the new fields and the answer are those of `Poll` on the old cursor and the REST transport's outcome for the page request |
| `Webdav.NewWebdavClient` | webdav.go:24-41 | fails exactly when the endpoint does not parse; otherwise stores the endpoint and the credential normalised as the REST client does |
| `Webdav.QueryPieces` | webdav.go:45 | splitting on '?' gives first the text before the first '?'; there is a second piece exactly when there is a '?', and it is the text up to the next '?' |
| `Webdav.PutRequest` | webdav.go:45-55 | a PUT of the file stream with Authorization and `binary/octet-stream`; the path gains the text before the first '?'; the query becomes the text between the first and second '?', or stays the endpoint's when there is no '?' |
| `Webdav.Put` | webdav.go:65-70 | succeeds exactly on 200, 201 and 204; any other status is the "put" error for the request URL |
| `Webdav.SingleQueryKept` | webdav.go:49-51 | with one '?', the file path is the text before it, the '?' and the query, so nothing is lost |
| `Webdav.SecondQueryDropped` | webdav.go:45-51 | text from a second '?' onwards reaches neither the path nor the query |
| `Revisions.TransportsAgree` | rest.go:45-79 | given the same answers, both transports have the same outcome; the REST request differs only by its Content-Type |
| `Revisions.CredentialsAgree` | client.go:28-31 | the two revisions store the same Authorization value exactly when the token is already standard base64 |

## Left out

- Network round trips, client timeouts and context cancellation are I/O. They are the `Wire` argument of each transport call.
- `url.Parse`, `URL.String` and `url.Values.Encode` are not modelled. Whether a URI parses is part of the `Wire`, and the query a page request sends is written out directly.
- `path.Join` is modelled only as keeping the non-empty `/`-separated segments. Cleaning of `.` and `..` and whether the result is rooted are not modelled.
- `encoding/json` is not modelled. Whether a request encodes is a flag, what a body decodes to is the `Wire`, and how a buffered element unmarshals is a function argument.
- Error messages are constructors that carry their operation, method, URL and status. The status text (`http.StatusText`) and the wrapped causes are not spelt out.
- The request and response debug dumps printed by the REST transport are output only.
- The mutex in `ListIterator` is left out, because the model has a single caller.
- `ClientRevision.Do`, `ClientRevision.GetBranch`, `ClientRevision.SaveBranch`, `ClientRevision.ListIterator.More` and `ClientRevision.ListIterator.Branch` require `NoPanic`. The `Client` transport reads the status of a nil response on a network failure (client.go:58) and panics, so that case is excluded rather than modelled. `NoPanic` also excludes a failed redirect policy. In that case Go's `client.Do` returns a response along with the error, so `do` returns that 3xx status and the wrapped error without panicking. The model does not capture that outcome.
- `Webdav.Put` requires a server reply. On a network failure the code discards the wrapped error and dereferences a nil response (webdav.go:60-62), which panics.
- `Webdav.Put` and `Webdav.PutRequest` do not model the failure of `http.NewRequest` (webdav.go:53). When the query text taken from the file path holds an ASCII control character, such as a tab, the URL does not parse. The code ignores that error and panics on the nil request at webdav.go:54. The model returns a request and a status outcome for such paths instead.
- `ClientRevision.GetBranch` returns only the error when the transport fails. Go also returns the partly filled branch.
- `RestRevision.Get` and `RestRevision.Save` return only the error on an unexpected status. Go has already decoded the body into the caller's destination.
- The `Branch` record (support.go:67-180) is a type parameter. Its fields are a JSON schema.
- incident.go and the support_*.go files are not part of this model. They are schemas and one-line wrappers around a list/get signature that rest.go does not have.
- Go strings are modelled two ways. A credential is a byte sequence, because base64 works on bytes. Paths and queries are character sequences.

## Findings

| source | as written | input that shows it | evidently intended | confidence | as-written member | corrected member |
|---|---|---|---|---|---|---|
| rest.go:129 | `delete` decodes the response into a nil destination, which Go's JSON decoder always refuses (an empty body is an EOF error); so every request that reaches the server fails with the decoding error and the 200 check is unreachable | a DELETE answered with status 200 and an empty body (or `{}`) | discard the response body instead of decoding it, so that 200 is success whatever the body, and any other status is the "delete" error | not executed | `RestRevision.Delete` | `RestRevision.DeleteIntended` |
