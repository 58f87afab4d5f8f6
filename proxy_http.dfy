/**
 * The HTTP side of the development API proxy (`web_handler`): the headers copied to
 * the outbound API request, the streaming relay of the upstream response, and the
 * mapping of the four exception kinds onto the reply sent to the caller.
 */
module ProxyHttp {
  import opened Common
  import opened Values
  import ProxyRoutes

  // ---------------------------------------------------------------------------
  // Headers: an ordered multi-map with case-insensitive names
  // ---------------------------------------------------------------------------

  type Header = (string, string)

  function AsciiLower(c: char): char
  {
    if 'A' <= c <= 'Z' then (c as int + 32) as char else c
  }

  /** Header names compare without regard to ASCII letter case. */
  predicate SameName(a: string, b: string)
  {
    |a| == |b| && forall i :: 0 <= i < |a| ==> AsciiLower(a[i]) == AsciiLower(b[i])
  }

  /** `headers[name]`: the value of the first header with that name. */
  function Lookup(hs: seq<Header>, name: string): Option<string>
  {
    if hs == [] then None
    else if SameName(hs[0].0, name) then Some(hs[0].1)
    else Lookup(hs[1..], name)
  }

  /** The headers whose name differs from `name`, in their order. */
  function Without(hs: seq<Header>, name: string): (r: seq<Header>)
    ensures forall i :: 0 <= i < |r| ==> !SameName(r[i].0, name)
    ensures |r| <= |hs|
  {
    if hs == [] then []
    else if SameName(hs[0].0, name) then Without(hs[1..], name)
    else [hs[0]] + Without(hs[1..], name)
  }

  /** The headers named `name`, in their order. */
  function Named(hs: seq<Header>, name: string): seq<Header>
  {
    if hs == [] then []
    else if SameName(hs[0].0, name) then [hs[0]] + Named(hs[1..], name)
    else Named(hs[1..], name)
  }

  /**
   * `headers[name] = value` on a case-insensitive multi-map: the first header with
   * that name takes the new name and value in place, later ones are removed, and
   * when there is none the header is appended.
   */
  function SetHeader(hs: seq<Header>, name: string, value: string): (r: seq<Header>)
    ensures (name, value) in r && |r| <= |hs| + 1
  {
    if hs == [] then [(name, value)]
    else if SameName(hs[0].0, name) then [(name, value)] + Without(hs[1..], name)
    else [hs[0]] + SetHeader(hs[1..], name, value)
  }

  lemma SameNameReflexive(a: string)
    ensures SameName(a, a)
  {
  }

  /** Dropping `name` from headers that no longer hold it changes nothing. */
  lemma {:induction false} WithoutNamed(hs: seq<Header>, name: string)
    ensures Named(Without(hs, name), name) == []
    ensures Without(Without(hs, name), name) == Without(hs, name)
  {
    if hs != [] {
      WithoutNamed(hs[1..], name);
    }
  }

  /**
   * After `headers[name] = value` exactly one header carries that name, with the
   * new value, and every other header is kept in its order.
   */
  lemma {:induction false} SetHeaderSpec(hs: seq<Header>, name: string, value: string)
    ensures Named(SetHeader(hs, name, value), name) == [(name, value)]
    ensures Without(SetHeader(hs, name, value), name) == Without(hs, name)
    ensures Lookup(SetHeader(hs, name, value), name) == Some(value)
  {
    SameNameReflexive(name);
    if hs == [] {
    } else if SameName(hs[0].0, name) {
      WithoutNamed(hs[1..], name);
      assert ([(name, value)] + Without(hs[1..], name))[1..] == Without(hs[1..], name);
    } else {
      SetHeaderSpec(hs[1..], name, value);
      assert ([hs[0]] + SetHeader(hs[1..], name, value))[1..] == SetHeader(hs[1..], name, value);
    }
  }

  // ---------------------------------------------------------------------------
  // The outbound API request
  // ---------------------------------------------------------------------------

  /** What the handler hands to the API request it signs and sends. */
  datatype ApiRequest = ApiRequest(
    httpMethod: string,
    path: string,
    query: seq<(string, string)>,
    rawHeaders: seq<Header>)

  /**
   * The raw headers copied from the caller's request: Content-Type verbatim (so a
   * multipart boundary survives) and Content-Length verbatim, each only when present.
   */
  function CopiedHeaders(inbound: seq<Header>): (r: seq<Header>)
    ensures Lookup(r, "Content-Type") == Lookup(inbound, "Content-Type")
    ensures Lookup(r, "Content-Length") == Lookup(inbound, "Content-Length")
    ensures forall i :: 0 <= i < |r| ==> r[i].0 == "Content-Type" || r[i].0 == "Content-Length"
  {
    var ct := Lookup(inbound, "Content-Type");
    var cl := Lookup(inbound, "Content-Length");
    assert !SameName("Content-Type", "Content-Length");
    assert !SameName("Content-Length", "Content-Type");
    assert SameName("Content-Type", "Content-Type");
    assert SameName("Content-Length", "Content-Length");
    (if ct.Some? then [("Content-Type", ct.value)] else []) +
    (if cl.Some? then [("Content-Length", cl.value)] else [])
  }

  /** The request `web_handler` builds: the caller's method and query, the rewritten path. */
  function BuildApiRequest(httpMethod: string, path: string, query: seq<(string, string)>,
                           inbound: seq<Header>): (r: ApiRequest)
    ensures r.path == ProxyRoutes.RewritePath(path)
    ensures r.httpMethod == httpMethod && r.query == query
    ensures Lookup(r.rawHeaders, "Content-Type") == Lookup(inbound, "Content-Type")
    ensures Lookup(r.rawHeaders, "Content-Length") == Lookup(inbound, "Content-Length")
  {
    ApiRequest(httpMethod, ProxyRoutes.RewritePath(path), query, CopiedHeaders(inbound))
  }

  // ---------------------------------------------------------------------------
  // The upstream body reader and the relay loop
  // ---------------------------------------------------------------------------

  const ReadSize: nat := 8192

  /** What one `aread(n)` returns: at most `n` bytes of the next pending segment; empty at the end. */
  function ReadResult(pending: seq<Bytes>, n: nat): Bytes
  {
    if pending == [] then []
    else if |pending[0]| <= n then pending[0]
    else pending[0][..n]
  }

  /** The segments still pending after one `aread(n)`. */
  function AfterRead(pending: seq<Bytes>, n: nat): seq<Bytes>
  {
    if pending == [] then []
    else if |pending[0]| <= n then pending[1..]
    else [pending[0][n..]] + pending[1..]
  }

  /** The body the reader delivers: every byte of the segments before the first empty one. */
  function BodyBeforeEof(pending: seq<Bytes>): Bytes
  {
    if pending == [] || pending[0] == [] then [] else pending[0] + BodyBeforeEof(pending[1..])
  }

  /** The segments left unread once the empty end-of-body segment has been consumed. */
  function AfterEof(pending: seq<Bytes>): seq<Bytes>
  {
    if pending == [] then []
    else if pending[0] == [] then pending[1..]
    else AfterEof(pending[1..])
  }

  /** The concatenation of the chunks written, in order. */
  function Flatten(chunks: seq<Bytes>): Bytes
  {
    if chunks == [] then [] else chunks[0] + Flatten(chunks[1..])
  }

  function Weight(pending: seq<Bytes>): nat
  {
    if pending == [] then 0 else |pending[0]| + 1 + Weight(pending[1..])
  }

  /**
   * One read either returns a non-empty prefix of the body and leaves the rest of
   * it pending, or returns the empty end-of-body marker and consumes it.
   */
  lemma ReadStep(pending: seq<Bytes>, n: nat)
    requires n > 0
    ensures var c := ReadResult(pending, n);
      |c| <= n &&
      (c != [] ==>
        c + BodyBeforeEof(AfterRead(pending, n)) == BodyBeforeEof(pending) &&
        AfterEof(AfterRead(pending, n)) == AfterEof(pending) &&
        Weight(AfterRead(pending, n)) < Weight(pending)) &&
      (c == [] ==>
        BodyBeforeEof(pending) == [] && AfterRead(pending, n) == AfterEof(pending))
  {
    if pending != [] && |pending[0]| > n {
      LongSegmentRead(pending[0], pending[1..], n);
      assert pending == [pending[0]] + pending[1..];
    }
  }

  /** A read from a segment longer than `n` splits it and keeps the split part pending. */
  lemma LongSegmentRead(h: Bytes, tail: seq<Bytes>, n: nat)
    requires 0 < n < |h|
    ensures var rest := [h[n..]] + tail;
      && h[..n] + BodyBeforeEof(rest) == BodyBeforeEof([h] + tail)
      && AfterEof(rest) == AfterEof([h] + tail)
      && Weight(rest) < Weight([h] + tail)
  {
    var rest := [h[n..]] + tail;
    assert rest[0] == h[n..] && rest[1..] == tail;
    assert ([h] + tail)[0] == h && ([h] + tail)[1..] == tail;
    assert BodyBeforeEof(rest) == h[n..] + BodyBeforeEof(tail);
    assert h[..n] + (h[n..] + BodyBeforeEof(tail)) == (h[..n] + h[n..]) + BodyBeforeEof(tail);
    assert h[..n] + h[n..] == h;
  }

  /** Writing a chunk moves it from the front of the unread body to the end of what was written. */
  lemma Appended(written: seq<Bytes>, chunk: Bytes, rest: Bytes, body: Bytes)
    requires chunk + rest == body
    ensures Flatten(written + [chunk]) + rest == Flatten(written) + body
  {
    FlattenAppend(written, chunk);
    assert Flatten(written) + chunk + rest == Flatten(written) + (chunk + rest);
  }

  lemma {:induction false} FlattenAppend(chunks: seq<Bytes>, c: Bytes)
    ensures Flatten(chunks + [c]) == Flatten(chunks) + c
  {
    if chunks != [] {
      assert (chunks + [c])[1..] == chunks[1..] + [c];
      FlattenAppend(chunks[1..], c);
    }
  }

  /**
   * Whatever follows the first empty segment is never part of the body: a reader
   * whose segments are `xs`, none empty, then the end marker, then anything at all,
   * delivers exactly the bytes of `xs`.
   */
  lemma {:induction false} BodyIgnoresAfterEof(xs: seq<Bytes>, ys: seq<Bytes>)
    requires forall i :: 0 <= i < |xs| ==> xs[i] != []
    ensures BodyBeforeEof(xs + [[]] + ys) == Flatten(xs)
    ensures AfterEof(xs + [[]] + ys) == ys
  {
    if xs != [] {
      assert (xs + [[]] + ys)[1..] == xs[1..] + [[]] + ys;
      BodyIgnoresAfterEof(xs[1..], ys);
    } else {
      assert (xs + [[]] + ys)[1..] == ys;
    }
  }

  /** The body stream of an upstream response: the segments successive reads will see. */
  class ChunkReader {
    var pending: seq<Bytes>

    constructor (segments: seq<Bytes>)
      ensures pending == segments
    {
      pending := segments;
    }

    /** `aread(n)`: up to `n` bytes of what has arrived; empty bytes at the end of the body. */
    method ARead(n: nat) returns (chunk: Bytes)
      requires n > 0
      modifies this
      ensures chunk == ReadResult(old(pending), n)
      ensures pending == AfterRead(old(pending), n)
    {
      chunk := ReadResult(pending, n);
      pending := AfterRead(pending, n);
    }
  }

  /** The response of the API request, as the fetch context yields it. */
  class UpstreamResponse {
    const status: int
    const reason: string
    const headers: seq<Header>
    const body: ChunkReader
    /** The connection behind the response has been given back (the `async with` exit). */
    var released: bool

    constructor (status: int, reason: string, headers: seq<Header>, body: ChunkReader)
      ensures this.status == status && this.reason == reason
      ensures this.headers == headers && this.body == body && !released
    {
      this.status := status;
      this.reason := reason;
      this.headers := headers;
      this.body := body;
      released := false;
    }

    /** Leaving `async with api_rqst.fetch() as up_resp`, however the block ends. */
    method Release()
      modifies this
      ensures released
    {
      released := true;
    }
  }

  /** The streamed response sent back to the caller. */
  class StreamResponse {
    var status: int
    var reason: string
    var headers: seq<Header>
    var written: seq<Bytes>

    constructor ()
      ensures status == 200 && reason == "OK" && headers == [] && written == []
    {
      status, reason, headers, written := 200, "OK", [], [];
    }
  }

  /**
   * The relay of `web_handler`: same status and reason, the upstream headers with
   * Access-Control-Allow-Origin forced to '*', and a body copied with 8192-byte reads
   * until the first empty read; nothing after that read is consumed.
   */
  method Relay(up: UpstreamResponse) returns (down: StreamResponse)
    modifies up.body
    ensures fresh(down)
    ensures down.status == up.status && down.reason == up.reason
    ensures down.headers == SetHeader(up.headers, "Access-Control-Allow-Origin", "*")
    ensures Flatten(down.written) == BodyBeforeEof(old(up.body.pending))
    ensures forall i :: 0 <= i < |down.written| ==> 0 < |down.written[i]| <= ReadSize
    ensures up.body.pending == AfterEof(old(up.body.pending))
  {
    down := new StreamResponse();
    down.status, down.reason := up.status, up.reason;
    // update() into the fresh response's empty header table copies the upstream headers
    down.headers := up.headers;
    down.headers := SetHeader(down.headers, "Access-Control-Allow-Origin", "*");
    // each chunk goes out with `await resp.write(chunk)` as it arrives; the order is kept
    down.written := CopyBody(up.body);
  }

  /** The read loop of `web_handler`: 8192-byte reads until the first empty one. */
  method CopyBody(body: ChunkReader) returns (written: seq<Bytes>)
    modifies body
    ensures Flatten(written) == BodyBeforeEof(old(body.pending))
    ensures forall i :: 0 <= i < |written| ==> 0 < |written[i]| <= ReadSize
    ensures body.pending == AfterEof(old(body.pending))
  {
    ghost var original := body.pending;
    written := [];
    while true
      invariant Flatten(written) + BodyBeforeEof(body.pending) == BodyBeforeEof(original)
      invariant AfterEof(body.pending) == AfterEof(original)
      invariant forall i :: 0 <= i < |written| ==> 0 < |written[i]| <= ReadSize
      decreases Weight(body.pending)
    {
      ghost var before := body.pending;
      ReadStep(before, ReadSize);
      var chunk := body.ARead(ReadSize);
      if chunk == [] {
        assert Flatten(written) + [] == Flatten(written);
        break;
      }
      Appended(written, chunk, BodyBeforeEof(body.pending), BodyBeforeEof(before));
      written := written + [chunk];
    }
  }

  // ---------------------------------------------------------------------------
  // Exceptions and the replies they become
  // ---------------------------------------------------------------------------

  /** What can escape the body of either proxy handler. */
  datatype Fault =
    | ApiError(status: int, reason: string, data: Value)  // BackendAPIError
    | ClientError                                         // BackendClientError
    | Cancelled                                           // asyncio.CancelledError
    | Unexpected(description: string)                     // any other Exception

  /** A reply body: the JSON text of a value (`json.dumps`, not modelled) or fixed text. */
  datatype Body = JsonOf(data: Value) | Text(text: string)

  datatype Reply = Reply(status: int, reason: string, body: Body)

  /**
   * The `except` clauses shared by `web_handler` and `websocket_handler`, in clause
   * order: an API error passes through, an unreachable upstream is 502 Bad Gateway
   * (section 15.6.3 of RFC 9110), shutdown is 503 Service Unavailable (section 15.6.4),
   * anything else is a 500 that reveals nothing about the fault.
   */
  function ErrorReply(f: Fault): (r: Reply)
    ensures f.ApiError? ==> r == Reply(f.status, f.reason, JsonOf(f.data))
    ensures f.ClientError? ==> r.status == 502 && r.reason == "Bad Gateway" &&
                               r.body == Text("The proxy target server is inaccessible.")
    ensures f.Cancelled? ==> r.status == 503 && r.reason == "Service Unavailable" &&
                             r.body == Text("The proxy is being shut down.")
    ensures f.Unexpected? ==> r.status == 500 && r.reason == "Internal Server Error" &&
                              r.body == Text("Something has gone wrong.")
    ensures !f.ApiError? ==> r.body.Text?
  {
    match f
    case ApiError(status, reason, data) => Reply(status, reason, JsonOf(data))
    case ClientError => Reply(502, "Bad Gateway", Text("The proxy target server is inaccessible."))
    case Cancelled => Reply(503, "Service Unavailable", Text("The proxy is being shut down."))
    case Unexpected(_) => Reply(500, "Internal Server Error", Text("Something has gone wrong."))
  }

  /** A proxy-side fault never leaks its details: two such faults of one kind get the same reply. */
  lemma ErrorReplyHidesDetails(a: Fault, b: Fault)
    requires a.Unexpected? && b.Unexpected?
    ensures ErrorReply(a) == ErrorReply(b)
  {
  }

  // ---------------------------------------------------------------------------
  // web_handler
  // ---------------------------------------------------------------------------

  /** What entering the fetch context gives: the upstream response, or the fault it raised. */
  datatype FetchOutcome = Fetched(response: UpstreamResponse) | FetchFailed(fault: Fault)

  datatype HandlerResult = Streamed(stream: StreamResponse) | Replied(reply: Reply)

  /**
   * `web_handler`: builds the API request for the rewritten path, and either relays
   * the upstream response or answers with the reply for the fault the fetch raised.
   * `upstream` is what sending `sent` through the signed API client (not modelled) gave.
   * A fetched response is released when the `async with` block is left.
   */
  method WebHandler(httpMethod: string, path: string, query: seq<(string, string)>,
                    inbound: seq<Header>, upstream: FetchOutcome)
    returns (sent: ApiRequest, result: HandlerResult)
    modifies if upstream.Fetched? then {upstream.response.body, upstream.response} else {}
    ensures sent == BuildApiRequest(httpMethod, path, query, inbound)
    ensures upstream.FetchFailed? ==> result == Replied(ErrorReply(upstream.fault))
    ensures upstream.Fetched? ==>
      var up := upstream.response;
      result.Streamed? && fresh(result.stream) &&
      result.stream.status == up.status && result.stream.reason == up.reason &&
      result.stream.headers == SetHeader(up.headers, "Access-Control-Allow-Origin", "*") &&
      Flatten(result.stream.written) == BodyBeforeEof(old(up.body.pending))
    ensures upstream.Fetched? ==> upstream.response.released
  {
    sent := BuildApiRequest(httpMethod, path, query, inbound);
    match upstream
    case FetchFailed(f) =>
      result := Replied(ErrorReply(f));
    case Fetched(up) =>
      var down := Relay(up);
      up.Release();
      result := Streamed(down);
  }
}
