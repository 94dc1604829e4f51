/** The call router: only GET and POST requests whose URI starts with
    "/call" reach the function; the four invocation headers are read into a
    `Context`, and the function's optional body is sent back with status 200. */
module Routing {
  import opened Strings
  import opened Headers
  import opened HttpModels

  /** The invocation metadata handed to the function. Each field holds a value:
      the router builds a context only when all four headers are present. */
  datatype Context = Context(callId: string, deadLine: string, httpMethod: string, requestUrl: string, headers: HeaderList)

  /** The function the embedding application registers (`Fnable.handler`). */
  type Handler = (Context, Option<Body>) -> Option<Body>

  /** The router holds the registered function, if any; it is fixed at creation. */
  datatype Router = Router(fn: Option<Handler>)

  /** One call of the registered function, with its arguments. */
  datatype Invocation = Invocation(ctx: Context, reqBody: Option<Body>)

  /** What routing a request leads to: a response together with the calls made
      to the registered function, or a trap because a force-unwrapped header
      was absent (the process terminates). */
  datatype Routed =
    | Responded(response: Response, calls: seq<Invocation>)
    | Trapped(missingHeader: string)

  /** The texts of the canned bodies. */
  const NotFoundText: string := "Not found"
  const DefaultText: string := "default ok"

  const CallPrefix: string := "/call"
  const CallIdHeader: string := "Fn-Call-Id"
  const DeadlineHeader: string := "Fn-Deadline"
  const MethodHeader: string := "Fn-Http-Method"
  const RequestUrlHeader: string := "Fn-Http-Request-Url"

  /** The routed case: a GET or POST whose URI starts with "/call". */
  predicate Matches(head: RequestHead)
  {
    (head.httpMethod == GET || head.httpMethod == POST) && CallPrefix <= head.uri
  }

  /** The first required header, in the order the context reads them, that the
      request lacks; the force-unwrap of that one is the one that traps. */
  function FirstMissing(headers: HeaderList): (r: Option<string>)
    ensures r.None? <==> First(headers, CallIdHeader).Some? && First(headers, DeadlineHeader).Some?
                         && First(headers, MethodHeader).Some? && First(headers, RequestUrlHeader).Some?
    ensures r.Some? ==> First(headers, r.value).None?
  {
    if First(headers, CallIdHeader).None? then Some(CallIdHeader)
    else if First(headers, DeadlineHeader).None? then Some(DeadlineHeader)
    else if First(headers, MethodHeader).None? then Some(MethodHeader)
    else if First(headers, RequestUrlHeader).None? then Some(RequestUrlHeader)
    else None
  }

  /** The headers are read in the context's order, so the one named is the
      first absent one: every header read before it is present. */
  lemma FirstMissingOrder(headers: HeaderList)
    ensures FirstMissing(headers).Some? ==>
              FirstMissing(headers).value in [CallIdHeader, DeadlineHeader, MethodHeader, RequestUrlHeader]
    ensures FirstMissing(headers) == Some(DeadlineHeader) ==> First(headers, CallIdHeader).Some?
    ensures FirstMissing(headers) == Some(MethodHeader) ==>
              First(headers, CallIdHeader).Some? && First(headers, DeadlineHeader).Some?
    ensures FirstMissing(headers) == Some(RequestUrlHeader) ==>
              First(headers, CallIdHeader).Some? && First(headers, DeadlineHeader).Some? && First(headers, MethodHeader).Some?
  {
  }

  /** The context of a request that carries all four headers. */
  function ContextOf(headers: HeaderList): (ctx: Context)
    requires FirstMissing(headers).None?
    ensures Some(ctx.callId) == First(headers, CallIdHeader)
    ensures Some(ctx.deadLine) == First(headers, DeadlineHeader)
    ensures Some(ctx.httpMethod) == First(headers, MethodHeader)
    ensures Some(ctx.requestUrl) == First(headers, RequestUrlHeader)
    ensures ctx.headers == headers
  {
    Context(First(headers, CallIdHeader).value, First(headers, DeadlineHeader).value,
            First(headers, MethodHeader).value, First(headers, RequestUrlHeader).value, headers)
  }

  /** The canned answer when no function is registered. */
  function DefaultResponse(): Response
  {
    NewResponse(StatusOk, Some(LiteralBody(DefaultText)))
  }

  function NotFoundResponse(): Response
  {
    NewResponse(StatusNotFound, Some(TextBody(NotFoundText)))
  }

  /** `Router.respond(to:)`. */
  function Respond(router: Router, request: HttpRequest): (r: Routed)
    ensures r.Responded? ==> r.response.head.version == Version(1, 1) && r.response.head.headers == []
  {
    if !Matches(request.head) then Responded(NotFoundResponse(), [])
    else
      match FirstMissing(request.head.headers)
      case Some(name) => Trapped(name)
      case None =>
        var ctx := ContextOf(request.head.headers);
        match router.fn
        case None => Responded(DefaultResponse(), [])
        case Some(fn) =>
          var reqBody := RequestBody(request);
          Responded(NewResponse(StatusOk, fn(ctx, reqBody)), [Invocation(ctx, reqBody)])
  }

  /** What `respond` answers in each case. */
  lemma RespondCases(router: Router, request: HttpRequest)
    // A request that is not a GET or POST to "/call..." gets 404 "Not found"
    // and the function is not called.
    ensures !Matches(request.head) ==>
              Respond(router, request).Responded? && Respond(router, request).calls == [] && Respond(router, request).response.head.status == StatusNotFound
              && Respond(router, request).response.body == Some(TextBody(NotFoundText))
    // On a matched route, a missing header traps whether or not a function is
    // registered, because the context is built first.
    ensures Matches(request.head) && FirstMissing(request.head.headers).Some? ==>
              Respond(router, request) == Trapped(FirstMissing(request.head.headers).value)
    ensures Matches(request.head) && FirstMissing(request.head.headers).None? && router.fn.None? ==>
              Respond(router, request).Responded? && Respond(router, request).calls == [] && Respond(router, request).response.head.status == StatusOk
              && Respond(router, request).response.body == Some(TextBody(DefaultText))
    // With a function, it is called once, with the context and the request's
    // body, and whatever it returns (including nothing) is the 200 body.
    ensures Matches(request.head) && FirstMissing(request.head.headers).None? && router.fn.Some? ==>
              var call := Invocation(ContextOf(request.head.headers), RequestBody(request));
              Respond(router, request).Responded? && Respond(router, request).calls == [call] && Respond(router, request).response.head.status == StatusOk
              && Respond(router, request).response.body == router.fn.value(call.ctx, call.reqBody)
  {
  }

  /** Routing is a prefix test: any URI that begins with "/call" is routed,
      "/callback?x" included. */
  lemma PrefixRouting(head: RequestHead, rest: string)
    requires head.httpMethod == GET || head.httpMethod == POST
    requires head.uri == CallPrefix + rest
    ensures Matches(head)
  {
  }

  /** The function is called at most once per request, and only on a matched
      route whose four headers are all present. */
  lemma CallsOnlyWhenRouted(router: Router, request: HttpRequest)
    ensures Respond(router, request).Responded? ==> |Respond(router, request).calls| <= 1
    ensures Respond(router, request).Responded? && Respond(router, request).calls != [] ==>
              Matches(request.head) && FirstMissing(request.head.headers).None? && router.fn.Some?
  {
  }
}
