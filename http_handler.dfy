/** The per-connection handler: it accumulates one request from the head,
    body and end parts the HTTP decoder delivers, hands the finished request
    to the router, and writes the response back as a head, the body bytes
    and an end part. `Step` and `Run` state what it does as functions of the
    connection's state; the class `HttpHandler` does it in place and is
    proved to agree with them. */
module Connection {
  import opened Strings
  import opened Headers
  import opened HttpModels
  import opened Routing

  /** Declared lengths above this close the connection at once. */
  const MaxBodyLength: int := 50_000_000

  /** What the decoder delivers. */
  datatype InPart = InHead(head: RequestHead) | InBody(bytes: seq<byte>) | InEnd

  /** What the handler writes; the end part never carries trailers. */
  datatype OutPart = OutHead(head: ResponseHead) | OutBody(bytes: seq<byte>) | OutEnd

  // ---------------------------------------------------------------------
  // The keep-alive policy of the response head
  // ---------------------------------------------------------------------

  /** The caller's headers already say keep-alive or close. */
  predicate ConnectionPreset(headers: HeaderList)
  {
    var options := ConnectionOptions(headers);
    "keep-alive" in options || "close" in options
  }

  /** `httpResponseHead(request:status:headers:)`: a head that mirrors the
      request's version and, unless the caller chose already, mirrors an
      HTTP/1.0 keep-alive or an HTTP/1.1 close. */
  function ResponseHeadFor(request: RequestHead, status: nat, headers: HeaderList := []): (head: ResponseHead)
    ensures head.version == request.version && head.status == status
    ensures ConnectionPreset(headers) ==> head.headers == headers
    ensures !ConnectionPreset(headers) && IsKeepAlive(request) && request.version == Version(1, 0) ==>
              head.headers == headers + [("Connection", "keep-alive")]
    ensures !ConnectionPreset(headers) && !IsKeepAlive(request)
            && request.version.major == 1 && request.version.minor >= 1 ==>
              head.headers == headers + [("Connection", "close")]
    ensures !(IsKeepAlive(request) && request.version == Version(1, 0))
            && !(!IsKeepAlive(request) && request.version.major == 1 && request.version.minor >= 1) ==>
              head.headers == headers
  {
    var head := ResponseHead(request.version, status, headers);
    if ConnectionPreset(headers) then head
    else if IsKeepAlive(request) && request.version.major == 1 && request.version.minor == 0 then
      head.(headers := Add(head.headers, "Connection", "keep-alive"))
    else if !IsKeepAlive(request) && request.version.major == 1 && request.version.minor >= 1 then
      head.(headers := Add(head.headers, "Connection", "close"))
    else head
  }

  /** "Connection" is the `connection` header, whatever the case. */
  lemma ConnectionNamed()
    ensures EqualsIgnoreCase("Connection", "connection")
  {
    assert Lower("Connection") == "connection";
  }

  /** Keep-alive matrix: an HTTP/1.0 request that asks for keep-alive (and not
      for close) is answered with a `Connection: keep-alive` header. */
  lemma KeepAliveFor10(request: RequestHead, status: nat, headers: HeaderList)
    requires !ConnectionPreset(headers)
    requires request.version == Version(1, 0)
    requires "keep-alive" in ConnectionOptions(request.headers) && "close" !in ConnectionOptions(request.headers)
    ensures Values(ResponseHeadFor(request, status, headers).headers, "connection")
            == Values(headers, "connection") + ["keep-alive"]
  {
    ConnectionNamed();
    assert IsKeepAlive(request);
    assert ResponseHeadFor(request, status, headers).headers == Add(headers, "Connection", "keep-alive");
  }

  /** Keep-alive matrix: an HTTP/1.1 request that asks for close is answered
      with a `Connection: close` header. */
  lemma CloseFor11(request: RequestHead, status: nat, headers: HeaderList)
    requires !ConnectionPreset(headers)
    requires request.version == Version(1, 1) && "close" in ConnectionOptions(request.headers)
    ensures Values(ResponseHeadFor(request, status, headers).headers, "connection")
            == Values(headers, "connection") + ["close"]
  {
    ConnectionNamed();
    assert !IsKeepAlive(request);
    assert ResponseHeadFor(request, status, headers).headers == Add(headers, "Connection", "close");
  }

  /** Keep-alive matrix: an HTTP/1.1 request without options, and an HTTP/1.0
      request that does not ask for keep-alive, get no `connection` header. */
  lemma NoConnectionHeader(request: RequestHead, status: nat, headers: HeaderList)
    requires !ConnectionPreset(headers)
    requires (request.version == Version(1, 1) && ConnectionOptions(request.headers) == [])
             || (request.version == Version(1, 0) && "keep-alive" !in ConnectionOptions(request.headers))
    ensures ResponseHeadFor(request, status, headers).headers == headers
  {
    if request.version == Version(1, 1) {
      assert IsKeepAlive(request);
    } else {
      assert !IsKeepAlive(request);
    }
  }

  // ---------------------------------------------------------------------
  // Reading the request
  // ---------------------------------------------------------------------

  /** The declared body length: the first `content-length` value read as
      `Int`, or 0 when there is none or it does not parse. */
  function DeclaredLength(headers: HeaderList): (n: int)
    ensures Int64Min <= n <= Int64Max
  {
    match First(headers, "content-length")
    case None => 0
    case Some(text) =>
      match ParseInt(text)
      case None => 0
      case Some(value) => value
  }

  // ---------------------------------------------------------------------
  // Writing the response
  // ---------------------------------------------------------------------

  /** The head `writeResponse` computes: the caller's content-length dropped,
      the body's length added, and its MIME type as the only content-type. */
  function FramedHead(response: Response): (head: ResponseHead)
    ensures head.version == response.head.version && head.status == response.head.status
    ensures response.body.None? ==> Values(head.headers, "content-length") == []
    ensures response.body.Some? ==>
              Values(head.headers, "content-length") == [ShowNat(|Data(response.body.value)|)]
    ensures response.body.Some? && response.body.value.mimeType.Some? ==>
              Values(head.headers, "content-type") == [response.body.value.mimeType.value]
    ensures response.body.None? || response.body.value.mimeType.None? ==>
              Values(head.headers, "content-type") == Values(response.head.headers, "content-type")
    ensures forall n :: !EqualsIgnoreCase(n, "content-length") && !EqualsIgnoreCase(n, "content-type") ==>
              Values(head.headers, n) == Values(response.head.headers, n)
  {
    var head := response.head.(headers := Remove(response.head.headers, "content-length"));
    match response.body
    case None => head
    case Some(body) =>
      var sized := head.(headers := Add(head.headers, "content-length", ShowNat(|Data(body)|)));
      match body.mimeType
      case None => sized
      case Some(mime) => sized.(headers := Add(Remove(sized.headers, "content-type"), "content-type", mime))
  }

  /** Reading the framed head's content-length back, the way a request's is
      read, gives the number of body bytes (0 without a body). */
  lemma FramedLengthReadsBack(response: Response)
    requires response.body.Some? ==> |Data(response.body.value)| <= Int64Max
    ensures DeclaredLength(FramedHead(response).headers)
            == if response.body.Some? then |Data(response.body.value)| else 0
  {
    var head := FramedHead(response);
    if response.body.Some? {
      ParseShowNat(|Data(response.body.value)|);
    }
  }

  /** The parts written for a response, in order: the head the response
      carries, its body bytes if it has a body, and an end part. */
  function Emitted(response: Response): (parts: seq<OutPart>)
    ensures |parts| >= 2 && parts[0] == OutHead(response.head) && parts[|parts| - 1] == OutEnd
    ensures response.body.None? ==> |parts| == 2
    ensures response.body.Some? ==> |parts| == 3 && parts[1] == OutBody(Data(response.body.value))
  {
    [OutHead(response.head)]
    + (if response.body.Some? then [OutBody(Data(response.body.value))] else [])
    + [OutEnd]
  }

  /** The head on the wire is the response's own, not the framed one: a body
      whose response head has no content-length goes out without one, although
      the framed head has it. */
  lemma WrittenHeadIsUnframed(response: Response)
    requires response.body.Some?
    requires Values(response.head.headers, "content-length") == []
    ensures Values(Emitted(response)[0].head.headers, "content-length") == []
    ensures Values(FramedHead(response).headers, "content-length") != []
  {
  }

  // ---------------------------------------------------------------------
  // The connection as a state machine
  // ---------------------------------------------------------------------

  /** The state of one connection: the request being read, the keep-alive
      flag of the last head, the `context.write` calls made, whether it was closed,
      the requests handed to the router, and whether the process trapped. */
  datatype Conn = Conn(
    request: Option<HttpRequest>,
    keepAlive: bool,
    output: seq<OutPart>,
    closed: bool,
    routed: seq<HttpRequest>,
    aborted: bool)

  function Initial(): Conn
  {
    Conn(None, false, [], false, [], false)
  }

  /** The effect of one part on the connection (`channelRead`). */
  function Step(router: Router, c: Conn, part: InPart): Conn
    requires !c.aborted
  {
    match part
    case InHead(head) =>
      var length := DeclaredLength(head.headers);
      var c1 := c.(keepAlive := IsKeepAlive(head));
      if length > MaxBodyLength then c1.(closed := true)
      else c1.(request := Some(HttpRequest(head, if length > 0 then Some([]) else None)))
    case InBody(bytes) =>
      if c.request.Some? && c.request.value.bodyBuffer.Some? then
        c.(request := Some(c.request.value.(bodyBuffer := Some(c.request.value.bodyBuffer.value + bytes))))
      else c
    case InEnd =>
      match c.request
      case None => c
      case Some(request) =>
        match Respond(router, request)
        case Trapped(_) => c.(routed := c.routed + [request], aborted := true)
        case Responded(response, _) =>
          c.(request := None, routed := c.routed + [request],
             output := c.output + Emitted(response), closed := c.closed || c.keepAlive)
  }

  /** The effect of a sequence of parts; nothing is read once the process
      trapped. A closed connection still accepts parts here, as the handler
      itself does not look at the close: NIO stops delivering them. */
  function Run(router: Router, c: Conn, parts: seq<InPart>): Conn
    decreases |parts|
  {
    if parts == [] || c.aborted then c else Run(router, Step(router, c, parts[0]), parts[1..])
  }

  function Chunks(chunks: seq<seq<byte>>): (parts: seq<InPart>)
    ensures |parts| == |chunks| && forall i :: 0 <= i < |chunks| ==> parts[i] == InBody(chunks[i])
  {
    seq(|chunks|, i requires 0 <= i < |chunks| => InBody(chunks[i]))
  }

  function Concat(chunks: seq<seq<byte>>): seq<byte>
  {
    if chunks == [] then [] else chunks[0] + Concat(chunks[1..])
  }

  /** A head sets the keep-alive flag first; a declared length over the limit
      then closes the connection and leaves the pending request as it was;
      otherwise a new pending request is stored, with an empty buffer only when
      the declared length is positive. Nothing is written either way. */
  lemma HeadStep(router: Router, c: Conn, head: RequestHead)
    requires !c.aborted
    ensures var next := Step(router, c, InHead(head));
            var length := DeclaredLength(head.headers);
            && next.keepAlive == IsKeepAlive(head)
            && next.output == c.output && next.routed == c.routed && !next.aborted
            && (length > MaxBodyLength ==> next.closed && next.request == c.request)
            && (length <= MaxBodyLength ==>
                  next.closed == c.closed
                  && next.request == Some(HttpRequest(head, if length > 0 then Some([]) else None)))
  {
  }

  /** The declared length is the parsed first content-length, else 0. */
  lemma DeclaredLengthCases(headers: HeaderList)
    ensures First(headers, "content-length").None? ==> DeclaredLength(headers) == 0
    ensures First(headers, "content-length").Some? && ParseInt(First(headers, "content-length").value).None? ==>
              DeclaredLength(headers) == 0
    ensures First(headers, "content-length").Some? && ParseInt(First(headers, "content-length").value).Some? ==>
              DeclaredLength(headers) == ParseInt(First(headers, "content-length").value).value
  {
  }

  /** Chunks read while a buffer is pending are appended to it in arrival order. */
  lemma {:induction false} ChunksAppend(router: Router, c: Conn, chunks: seq<seq<byte>>)
    requires !c.aborted && c.request.Some? && c.request.value.bodyBuffer.Some?
    ensures Run(router, c, Chunks(chunks))
            == c.(request := Some(c.request.value.(bodyBuffer := Some(c.request.value.bodyBuffer.value + Concat(chunks)))))
    decreases |chunks|
  {
    var buffer := c.request.value.bodyBuffer.value;
    if chunks == [] {
      assert buffer + Concat(chunks) == buffer;
    } else {
      var next := Step(router, c, InBody(chunks[0]));
      assert Chunks(chunks)[1..] == Chunks(chunks[1..]);
      ChunksAppend(router, next, chunks[1..]);
      assert buffer + chunks[0] + Concat(chunks[1..]) == buffer + Concat(chunks);
    }
  }

  /** Without a pending buffer, chunks are dropped and nothing changes. */
  lemma {:induction false} ChunksDropped(router: Router, c: Conn, chunks: seq<seq<byte>>)
    requires !c.aborted && (c.request.None? || c.request.value.bodyBuffer.None?)
    ensures Run(router, c, Chunks(chunks)) == c
    decreases |chunks|
  {
    if chunks != [] {
      assert Chunks(chunks)[1..] == Chunks(chunks[1..]);
      ChunksDropped(router, c, chunks[1..]);
    }
  }

  /** An end part with nothing pending changes nothing. Otherwise the router is
      called once with the pending request; on a response the request is
      cleared, the response is written, and the connection is closed exactly
      when the keep-alive flag is set (as the handler is written). */
  lemma EndStep(router: Router, c: Conn)
    requires !c.aborted
    ensures c.request.None? ==> Step(router, c, InEnd) == c
    ensures c.request.Some? ==>
              var next := Step(router, c, InEnd);
              var routed := Respond(router, c.request.value);
              && next.routed == c.routed + [c.request.value]
              && next.keepAlive == c.keepAlive
              && (routed.Trapped? ==> next.aborted && next.output == c.output && next.request == c.request)
              && (routed.Responded? ==>
                    && next.request.None? && !next.aborted
                    && next.output == c.output + Emitted(routed.response)
                    && next.closed == (c.closed || c.keepAlive))
  {
  }

  lemma {:induction false} RunAppend(router: Router, c: Conn, a: seq<InPart>, b: seq<InPart>)
    ensures Run(router, c, a + b) == Run(router, Run(router, c, a), b)
    decreases |a|
  {
    if a == [] {
      assert a + b == b;
    } else if !c.aborted {
      var next := Step(router, c, a[0]);
      assert (a + b)[0] == a[0] && (a + b)[1..] == a[1..] + b;
      assert Run(router, c, a + b) == Run(router, next, a[1..] + b);
      assert Run(router, c, a) == Run(router, next, a[1..]);
      RunAppend(router, next, a[1..], b);
    }
  }

  /** Running a single part is taking one step. */
  lemma RunOne(router: Router, c: Conn, part: InPart)
    requires !c.aborted
    ensures Run(router, c, [part]) == Step(router, c, part)
  {
    assert [part][1..] == [];
  }

  /** The head of a request within the limit starts an empty pending buffer. */
  lemma CycleHead(router: Router, c: Conn, head: RequestHead)
    requires !c.aborted
    requires 0 < DeclaredLength(head.headers) <= MaxBodyLength
    ensures Run(router, c, [InHead(head)])
            == c.(keepAlive := IsKeepAlive(head), request := Some(HttpRequest(head, Some([]))))
  {
    RunOne(router, c, InHead(head));
    HeadStep(router, c, head);
  }

  /** The end of a request that the router answers. */
  lemma CycleEnd(router: Router, c: Conn, request: HttpRequest)
    requires !c.aborted && c.request == Some(request)
    requires Respond(router, request).Responded?
    ensures Run(router, c, [InEnd])
            == c.(request := None, output := c.output + Emitted(Respond(router, request).response),
                  closed := c.closed || c.keepAlive, routed := c.routed + [request])
  {
    RunOne(router, c, InEnd);
    EndStep(router, c);
  }

  /** One whole request: a head declaring a length within the limit, any
      number of chunks and an end. The router sees the head with the chunks
      concatenated in order, the response is written after what was there, and
      the connection closes if the request was keep-alive. */
  lemma RequestCycle(router: Router, c: Conn, head: RequestHead, chunks: seq<seq<byte>>)
    requires !c.aborted
    requires 0 < DeclaredLength(head.headers) <= MaxBodyLength
    requires Respond(router, HttpRequest(head, Some(Concat(chunks)))).Responded?
    ensures var request := HttpRequest(head, Some(Concat(chunks)));
            Run(router, c, [InHead(head)] + Chunks(chunks) + [InEnd])
            == c.(request := None, keepAlive := IsKeepAlive(head),
                  output := c.output + Emitted(Respond(router, request).response),
                  closed := c.closed || IsKeepAlive(head),
                  routed := c.routed + [request])
  {
    var request := HttpRequest(head, Some(Concat(chunks)));
    var afterHead := c.(keepAlive := IsKeepAlive(head), request := Some(HttpRequest(head, Some([]))));
    CycleHead(router, c, head);
    ChunksAppend(router, afterHead, chunks);
    assert [] + Concat(chunks) == Concat(chunks);
    var afterBody := afterHead.(request := Some(request));
    CycleEnd(router, afterBody, request);
    RunAppend(router, c, [InHead(head)], Chunks(chunks));
    RunAppend(router, c, [InHead(head)] + Chunks(chunks), [InEnd]);
  }

  /** A head declaring more than the limit closes the connection; whatever
      body bytes follow, the end part finds nothing pending and not a byte of
      response is written. */
  lemma OversizedRequest(router: Router, c: Conn, head: RequestHead, chunks: seq<seq<byte>>)
    requires !c.aborted && c.request.None?
    requires DeclaredLength(head.headers) > MaxBodyLength
    ensures Run(router, c, [InHead(head)] + Chunks(chunks) + [InEnd])
            == c.(keepAlive := IsKeepAlive(head), closed := true)
  {
    var afterHead := Step(router, c, InHead(head));
    RunOne(router, c, InHead(head));
    HeadStep(router, c, head);
    ChunksDropped(router, afterHead, chunks);
    RunOne(router, afterHead, InEnd);
    EndStep(router, afterHead);
    RunAppend(router, c, [InHead(head)], Chunks(chunks));
    RunAppend(router, c, [InHead(head)] + Chunks(chunks), [InEnd]);
  }

  /** The header edits of `writeResponse`, done on a local copy of the
      response's head. */
  method FrameHead(response: Response) returns (framed: ResponseHead)
    ensures framed == FramedHead(response)
  {
    framed := response.head;
    framed := framed.(headers := Remove(framed.headers, "content-length"));
    if response.body.Some? {
      var buffer := response.body.value.buffer;
      framed := framed.(headers := Add(framed.headers, "content-length", ShowNat(|buffer|)));
      if response.body.value.mimeType.Some? {
        framed := framed.(headers := Remove(framed.headers, "content-type"));
        framed := framed.(headers := Add(framed.headers, "content-type", response.body.value.mimeType.value));
      }
    }
  }

  // ---------------------------------------------------------------------
  // The handler object
  // ---------------------------------------------------------------------

  /** `HTTPHandler`: one per connection, with the router fixed at creation. */
  class HttpHandler {
    const responder: Router
    var request: Option<HttpRequest>
    var keepAlive: bool
    /** Every `context.write` call, in order. A write after a close is
        logged like any other: the log does not say what reaches the peer. */
    var output: seq<OutPart>
    var closed: bool
    /** The router trapped on a missing header and the process terminated. */
    var aborted: bool
    /** Every request handed to the router, in order. */
    ghost var routed: seq<HttpRequest>

    ghost function State(): Conn
      reads this
    {
      Conn(request, keepAlive, output, closed, routed, aborted)
    }

    constructor (responder: Router)
      ensures this.responder == responder && State() == Initial()
    {
      this.responder := responder;
      request := None;
      keepAlive := false;
      output := [];
      closed := false;
      aborted := false;
      routed := [];
    }

    /** `channelRead(context:data:)`: dispatches on the part the decoder read. */
    method ChannelRead(part: InPart)
      requires !aborted
      modifies this
      ensures State() == Step(responder, old(State()), part)
    {
      match part {
        case InHead(head) => OnHead(head);
        case InBody(bytes) => OnBody(bytes);
        case InEnd => OnEnd();
      }
    }

    /** A head: record its keep-alive flag, read the declared length, and
        either close the connection or start a new pending request. */
    method OnHead(head: RequestHead)
      requires !aborted
      modifies this
      ensures State() == Step(responder, old(State()), InHead(head))
    {
      keepAlive := IsKeepAlive(head);
      var contentLength: int;
      var length := First(head.headers, "content-length");
      if length.Some? {
        var parsed := ParseInt(length.value);
        contentLength := if parsed.Some? then parsed.value else 0;
      } else {
        contentLength := 0;
      }
      if contentLength > MaxBodyLength {
        closed := true;
        return;
      }
      var body: Option<seq<byte>>;
      if contentLength > 0 {
        body := Some([]);
      } else {
        body := None;
      }
      request := Some(HttpRequest(head, body));
    }

    /** A body chunk: appended to the pending buffer, if there is one. */
    method OnBody(bytes: seq<byte>)
      requires !aborted
      modifies this
      ensures State() == Step(responder, old(State()), InBody(bytes))
    {
      if request.Some? && request.value.bodyBuffer.Some? {
        var pending := request.value;
        request := Some(pending.(bodyBuffer := Some(pending.bodyBuffer.value + bytes)));
      }
    }

    /** The end: the pending request, if any, goes to the router and its
        response is written. */
    method OnEnd()
      requires !aborted
      modifies this
      ensures State() == Step(responder, old(State()), InEnd)
    {
      if request.None? {
        return;
      }
      var pending := request.value;
      var result := Respond(responder, pending);
      routed := routed + [pending];
      if result.Trapped? {
        aborted := true;
        return;
      }
      request := None;
      var _ := WriteResponse(result.response);
    }

    /** `writeResponse(_:to:)`: computes the framed head, writes the response's
        own head, the body bytes if any and an end part, then closes the
        connection when the keep-alive flag is set. */
    method WriteResponse(response: Response) returns (framed: ResponseHead)
      modifies this
      ensures framed == FramedHead(response)
      ensures output == old(output) + Emitted(response)
      ensures closed == (old(closed) || keepAlive)
      ensures request == old(request) && keepAlive == old(keepAlive)
      ensures aborted == old(aborted) && routed == old(routed)
    {
      framed := FrameHead(response);
      Emit(response);
      if keepAlive {
        closed := true;
      }
    }

    /** The writes of `writeResponse`, in order: head, body, end. */
    method Emit(response: Response)
      modifies this`output
      ensures output == old(output) + Emitted(response)
    {
      WritePart(OutHead(response.head));
      if response.body.Some? {
        WritePart(OutBody(response.body.value.buffer));
      }
      WritePart(OutEnd);
    }

    /** One `context.write`. */
    method WritePart(part: OutPart)
      modifies this`output
      ensures output == old(output) + [part]
    {
      output := output + [part];
    }
  }
}
