/** The pagination cursor behind `ListIterator`, shared by both revisions of
    the client (`More` in iterator.go, `Next` in rest.go): a FIFO buffer of
    not-yet-decoded elements, a `more` flag, and `start`/`pageSize` counters.
    The two operations are pure functions of the cursor here; the iterator
    classes are specified by them, and the lemmas at the end follow the
    cursor through any sequence of calls. */
module Paging {
  import opened Text
  import opened Http

  /** A buffered element: raw, not yet decoded JSON (`json.RawMessage`). */
  type Raw = Bytes

  datatype Cursor = Cursor(start: uint64, pageSize: uint64, more: bool, data: seq<Raw>)

  /** The state `list` creates: more to come, nothing buffered, both counters zero. */
  function Initial(): Cursor
  {
    Cursor(0, 0, true, [])
  }

  /** The condition under which a poll goes to the network. */
  predicate WantsFetch(c: Cursor)
  {
    c.data == [] && c.more
  }

  /** Nothing buffered and nothing more to fetch. */
  predicate Exhausted(c: Cursor)
  {
    c.data == [] && !c.more
  }

  /** The offset a fetch asks for: 0 while `start` is 0, `start + pageSize`
      (as an unsigned 64-bit sum) otherwise. */
  function Offset(start: uint64, pageSize: uint64): (o: uint64)
    ensures start == 0 ==> o == 0
    ensures start > 0 && start + pageSize < 0x1_0000_0000_0000_0000 ==> o == start + pageSize
    ensures start > 0 && start + pageSize >= 0x1_0000_0000_0000_0000 ==> o == start + pageSize - 0x1_0000_0000_0000_0000
  {
    if start > 0 then (start + pageSize) % 0x1_0000_0000_0000_0000 else 0
  }

  /** The encoded query of a page request (`url.Values.Encode` sorts the keys). */
  function PageQuery(offset: uint64): string
  {
    "page_size=100&start=" + Decimal(offset)
  }

  /** The URL of a page request: the resource joined onto the endpoint path, and
      the page query in place of the endpoint's own query. */
  function PageUrl(endpoint: Url, resource: string, offset: uint64): (u: Url)
    ensures u.origin == endpoint.origin
    ensures u.path == endpoint.path + Segments(resource)
    ensures u.rawQuery == PageQuery(offset)
  {
    endpoint.(path := Join(endpoint.path, resource), rawQuery := PageQuery(offset))
  }

  /** The query names the offset: different offsets give different page requests. */
  lemma PageQueryNamesOffset(a: uint64, b: uint64)
    ensures PageQuery(a) == PageQuery(b) <==> a == b
  {
    if PageQuery(a) == PageQuery(b) {
      var prefix := "page_size=100&start=";
      assert Decimal(a) == PageQuery(a)[|prefix|..];
      assert Decimal(b) == PageQuery(b)[|prefix|..];
    }
  }

  /** One call of `More`/`Next`, given what the transport would answer to the page
      request: the new cursor and the boolean returned. */
  function Poll(c: Cursor, reply: Exchange<seq<Raw>>): (r: (Cursor, bool))
    ensures r.1 <==> r.0.data != []
    ensures r.0.start == c.start && r.0.pageSize == c.pageSize
    ensures !WantsFetch(c) ==> r.0 == c
    ensures WantsFetch(c) && reply.Failed? ==> r.0 == c
    ensures WantsFetch(c) && reply.Completed? ==>
      r.0.data == reply.value && (r.0.more <==> reply.status == StatusPartialContent)
  {
    if c.data == [] && c.more then
      match reply
      case Failed(_, _) => (c, false)
      case Completed(status, page) =>
        var c' := c.(data := page, more := status == StatusPartialContent);
        (c', |c'.data| > 0)
    else
      (c, |c.data| > 0)
  }

  /** One call of `decode`, given how the element at the front unmarshals into the
      caller's destination: the new cursor and the decoded value or the error. */
  function Take<T>(c: Cursor, unmarshal: Raw -> Option<T>): (r: (Cursor, Result<T>))
    ensures r.1 == Err(NoData) <==> c.data == []
    ensures r.1.Ok? <==> c.data != [] && unmarshal(c.data[0]).Some?
    ensures r.1.Ok? ==> r.1.value == unmarshal(c.data[0]).value && r.0 == c.(data := c.data[1..])
    ensures r.1.Err? ==> r.0 == c
  {
    if |c.data| == 0 then (c, Err(NoData))
    else
      match unmarshal(c.data[0])
      case Some(v) => (c.(data := c.data[1..]), Ok(v))
      case None => (c, Err(Unmarshal))
  }

  /** A call on the iterator, with the outside world's answer to it: a poll and
      the transport's answer to the page request it may make, or a decode and
      which elements the caller's destination accepts. */
  datatype Call =
    | Polled(reply: Exchange<seq<Raw>>)
    | Taken(accepts: Raw -> bool)

  /** What a sequence of calls did: the final cursor, the answers of the polls,
      the elements decoded, the pages fetched and the offsets requested, in order. */
  datatype Run = Run(cursor: Cursor, answers: seq<bool>, delivered: seq<Raw>, pages: seq<seq<Raw>>, offsets: seq<uint64>)

  function Replay(c: Cursor, calls: seq<Call>): Run
    decreases |calls|
  {
    if calls == [] then Run(c, [], [], [], [])
    else
      match calls[0]
      case Polled(reply) =>
        var (c', ok) := Poll(c, reply);
        var asked := if WantsFetch(c) then [Offset(c.start, c.pageSize)] else [];
        var page := if WantsFetch(c) && reply.Completed? then [reply.value] else [];
        var rest := Replay(c', calls[1..]);
        Run(rest.cursor, [ok] + rest.answers, rest.delivered, page + rest.pages, asked + rest.offsets)
      case Taken(accepts) =>
        var (c', res) := Take(c, (x: Raw) => if accepts(x) then Some(x) else None);
        var got := if res.Ok? then [res.value] else [];
        var rest := Replay(c', calls[1..]);
        Run(rest.cursor, rest.answers, got + rest.delivered, rest.pages, rest.offsets)
  }

  /** All the pages, one after the other. */
  function Flatten(pages: seq<seq<Raw>>): seq<Raw>
    decreases |pages|
  {
    if pages == [] then [] else pages[0] + Flatten(pages[1..])
  }

  /** Order is preserved: what was buffered, followed by every page fetched, is
      exactly what was decoded followed by what is still buffered. */
  lemma {:induction false} ReplayKeepsOrder(c: Cursor, calls: seq<Call>)
    ensures var r := Replay(c, calls); c.data + Flatten(r.pages) == r.delivered + r.cursor.data
    decreases |calls|
  {
    if calls != [] {
      var rest := calls[1..];
      match calls[0]
      case Polled(reply) =>
        var (c', ok) := Poll(c, reply);
        ReplayKeepsOrder(c', rest);
        var r' := Replay(c', rest);
        if WantsFetch(c) && reply.Completed? {
          assert Flatten([reply.value] + r'.pages) == reply.value + Flatten(r'.pages) by {
            assert ([reply.value] + r'.pages)[1..] == r'.pages;
          }
        } else {
          assert [] + r'.pages == r'.pages;
        }
      case Taken(accepts) =>
        var f := (x: Raw) => if accepts(x) then Some(x) else None;
        var (c', res) := Take(c, f);
        ReplayKeepsOrder(c', rest);
        var r' := Replay(c', rest);
        var r := Replay(c, calls);
        assert r.pages == r'.pages && r.cursor == r'.cursor;
        if res.Ok? {
          assert r.delivered == [c.data[0]] + r'.delivered;
          calc {
            c.data + Flatten(r.pages);
            ([c.data[0]] + c'.data) + Flatten(r'.pages);
            [c.data[0]] + (c'.data + Flatten(r'.pages));
            [c.data[0]] + (r'.delivered + r'.cursor.data);
            r.delivered + r.cursor.data;
          }
        }
    }
  }

  /** From a fresh iterator, the elements decoded so far followed by the ones still
      buffered are the fetched pages concatenated in fetch order. */
  lemma DeliveredInFetchOrder(calls: seq<Call>)
    ensures var r := Replay(Initial(), calls); Flatten(r.pages) == r.delivered + r.cursor.data
  {
    ReplayKeepsOrder(Initial(), calls);
  }

  /** Exhaustion is permanent: once nothing is buffered and nothing more is
      expected, every later call leaves the cursor alone, fetches nothing,
      decodes nothing and every poll answers false. */
  lemma {:induction false} ExhaustedStaysExhausted(c: Cursor, calls: seq<Call>)
    requires Exhausted(c)
    ensures var r := Replay(c, calls);
      r.cursor == c && r.pages == [] && r.offsets == [] && r.delivered == [] &&
      forall i :: 0 <= i < |r.answers| ==> !r.answers[i]
    decreases |calls|
  {
    if calls != [] {
      ExhaustedStaysExhausted(c, calls[1..]);
    }
  }

  /** The counters are never written, so every request asks for the same offset
      as the first one. */
  lemma {:induction false} OffsetNeverAdvances(c: Cursor, calls: seq<Call>)
    ensures var r := Replay(c, calls);
      r.cursor.start == c.start && r.cursor.pageSize == c.pageSize &&
      forall i :: 0 <= i < |r.offsets| ==> r.offsets[i] == Offset(c.start, c.pageSize)
    decreases |calls|
  {
    if calls != [] {
      match calls[0]
      case Polled(reply) =>
        OffsetNeverAdvances(Poll(c, reply).0, calls[1..]);
      case Taken(accepts) =>
        OffsetNeverAdvances(Take(c, (x: Raw) => if accepts(x) then Some(x) else None).0, calls[1..]);
    }
  }

  /** Hence every page request of a fresh iterator is `page_size=100&start=0`. */
  lemma EveryRequestStartsAtZero(calls: seq<Call>)
    ensures var r := Replay(Initial(), calls);
      forall i :: 0 <= i < |r.offsets| ==> r.offsets[i] == 0 && PageQuery(r.offsets[i]) == "page_size=100&start=0"
  {
    OffsetNeverAdvances(Initial(), calls);
  }

  /** A failed fetch does not end the sequence: the cursor is unchanged, so the
      next poll asks for the same page again. */
  lemma {:induction false} FailureIsRetried(c: Cursor, status: int, e: Error, reply: Exchange<seq<Raw>>)
    requires WantsFetch(c)
    ensures var r := Replay(c, [Polled(Failed(status, e)), Polled(reply)]);
      r.answers[0] == false && r.offsets == [Offset(c.start, c.pageSize), Offset(c.start, c.pageSize)]
  {
    assert [Polled(Failed(status, e)), Polled(reply)][1..] == [Polled(reply)];
    assert Replay(c, [Polled(reply)]).offsets == [Offset(c.start, c.pageSize)] by {
      assert [Polled(reply)][1..] == [];
    }
  }
}
