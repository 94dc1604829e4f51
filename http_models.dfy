/** The message value types of the server: request and response heads, a
    finished request with its optional body buffer, a response, and a body
    (bytes plus an optional MIME type) with its initialisers. */
module HttpModels {
  import opened Strings
  import opened Headers

  datatype Version = Version(major: nat, minor: nat)

  /** The request methods the router distinguishes; every other method is `Other`. */
  datatype Method = GET | POST | Other(name: string)

  datatype RequestHead = RequestHead(version: Version, httpMethod: Method, uri: string, headers: HeaderList)

  datatype ResponseHead = ResponseHead(version: Version, status: nat, headers: HeaderList)

  const StatusOk: nat := 200
  const StatusNotFound: nat := 404

  /** `HTTPBody`: the bytes of a buffer and the MIME type used for `content-type`. */
  datatype Body = Body(buffer: seq<byte>, mimeType: Option<string>)

  /** `HTTPRequest`: the head and the accumulated body buffer, if one was allocated. */
  datatype HttpRequest = HttpRequest(head: RequestHead, bodyBuffer: Option<seq<byte>>)

  datatype Response = Response(head: ResponseHead, body: Option<Body>)

  /** Whether the connection persists after this request, by the rules of
      section 6.3 of RFC 7230: a `close` option ends it; HTTP/1.1 and later
      keep it by default; HTTP/1.0 keeps it only with a `keep-alive` option. */
  predicate IsKeepAlive(head: RequestHead)
  {
    var options := ConnectionOptions(head.headers);
    if "close" in options then false
    else if head.version.major > 1 || (head.version.major == 1 && head.version.minor >= 1) then true
    else head.version == Version(1, 0) && "keep-alive" in options
  }

  /** `HTTPRequest.body`: the body buffer seen as a body without a MIME type. */
  function RequestBody(request: HttpRequest): (b: Option<Body>)
    ensures b.None? <==> request.bodyBuffer.None?
    ensures b.Some? ==> b.value.buffer == request.bodyBuffer.value && b.value.mimeType == None
  {
    match request.bodyBuffer
    case None => None
    case Some(buffer) => Some(BufferBody(buffer))
  }

  /** `HTTPResponse(status:headers:body:)`: always HTTP/1.1, headers empty unless given. */
  function NewResponse(status: nat, body: Option<Body>, headers: HeaderList := []): (r: Response)
    ensures r.head.version == Version(1, 1)
    ensures r.head.status == status && r.head.headers == headers && r.body == body
  {
    Response(ResponseHead(Version(1, 1), status, headers), body)
  }

  /** `HTTPBody(buffer:mimeType:)`. */
  function BufferBody(buffer: seq<byte>, mimeType: Option<string> := None): (b: Body)
    ensures Data(b) == buffer && b.mimeType == mimeType
  {
    Body(buffer, mimeType)
  }

  /** `HTTPBody(text:)`: the UTF-8 bytes of the text, labelled text/plain. */
  function TextBody(text: string): (b: Body)
    ensures Utf8Decode(Data(b)) == Some(text)
    ensures |Data(b)| == Utf8Count(text)
    ensures b.mimeType == Some("text/plain")
  {
    Utf8RoundTrip(text);
    Body(Utf8Encode(text), Some("text/plain"))
  }

  /** `HTTPBody(data:mimeType:)`: the bytes are copied into a fresh buffer. */
  function DataBody(data: seq<byte>, mimeType: Option<string> := None): (b: Body)
    ensures Data(b) == data && b.mimeType == mimeType
  {
    Body(data, mimeType)
  }

  /** `HTTPBody(stringLiteral:)`: the same as the text initialiser. */
  function LiteralBody(value: string): (b: Body)
    ensures b == TextBody(value)
  {
    TextBody(value)
  }

  /** `HTTPBody(json:pretty:)`. The encoder is given as `encode`, which answers
      None where Foundation's encoder throws. */
  function JsonBody<E>(encode: (E, bool) -> Option<seq<byte>>, value: E, pretty: bool := false): (r: Option<Body>)
    ensures r.Some? <==> encode(value, pretty).Some?
    ensures r.Some? ==> Data(r.value) == encode(value, pretty).value
    ensures r.Some? ==> r.value.mimeType == Some("application/json")
  {
    match encode(value, pretty)
    case None => None
    case Some(data) => Some(DataBody(data, Some("application/json")))
  }

  /** `HTTPBody.data`: the readable bytes of the buffer. */
  function Data(b: Body): seq<byte>
  {
    b.buffer
  }

  /** Whichever way the encoder formats the value, a JSON body is labelled
      application/json. */
  lemma JsonMimeIgnoresPretty<E>(encode: (E, bool) -> Option<seq<byte>>, value: E)
    requires encode(value, false).Some? && encode(value, true).Some?
    ensures JsonBody(encode, value, false).value.mimeType == JsonBody(encode, value, true).value.mimeType
  {
  }

  /** A text body of ASCII text holds one byte per character. */
  lemma AsciiTextBody(text: string)
    requires IsAscii(text)
    ensures |Data(TextBody(text))| == |text|
    ensures forall i :: 0 <= i < |text| ==> Data(TextBody(text))[i] as int == text[i] as int
  {
    Utf8Ascii(text);
  }
}
