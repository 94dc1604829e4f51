# fdk-swift connection core, modelled in Dafny

fdk-swift adapts the Fn platform's HTTP "function invocation" convention to
a single Swift handler. Each connection gets an `HTTPHandler`. The handler
accumulates a request from the head, body and end parts that the HTTP
decoder delivers. It hands the finished request to the `Router`. It writes
the router's response back to the connection.

The router accepts only `GET` and `POST` to a URI that starts with `/call`.
It reads the four `Fn-*` invocation headers into a `Context`. It then calls
the registered function, or answers "default ok" when none is registered.
Every other request gets 404 "Not found".

This model covers:

- the handler's state machine;
- the router;
- the message value types (`HTTPRequest`, `HTTPResponse`, `HTTPBody`);
- the `String` helpers and the bind-target choice of `Handle`.

Modules:

- `Strings` (strings.dfy): the Swift library behaviour the code relies on.
  - `Int(String)` is `ParseInt`: an optional sign, decimal digits only, and None on overflow of a 64-bit `Int`.
  - `String(Int)` is `ShowNat`.
  - UTF-8 encoding is `Utf8Encode`, with a decoder `Utf8Decode` as its partner.
  - ASCII case folding is `Lower`.
  - Bytes are the newtype `byte` (0 to 255, Swift `UInt8`).
- `Headers` (headers.dfy): NIO's `HTTPHeaders` as an ordered list of name/value pairs. Names compare without regard to ASCII case.
  - `Values` is `headers[name]` and `First` is `first(name:)`.
  - `Remove` and `Add` are the two header edits.
  - `CanonicalForm` is `headers[canonicalForm:]`: values split at commas, empty pieces dropped, whitespace trimmed.
- `HttpModels` (http_models.dfy): heads, bodies, requests, responses and the `HTTPBody` initialisers.
  - `IsKeepAlive` is the request's keep-alive flag, defined by section 6.3 of RFC 7230.
- `Routing` (router.dfy): `Context`, the registered function as a value of type `Handler`, and `Respond`.
  - A failed force-unwrap is the outcome `Trapped`.
  - Every call of the function is listed in the result, so "not called" and "called once" can be stated.
- `Connection` (http_handler.dfy): the handler itself.
  - `Step` and `Run` give the effect of input parts on the connection state, as functions.
  - The class `HttpHandler` has the fields the source updates (`request`, `keepAlive`), plus the parts written and a `closed` flag. Its `ChannelRead` is proved to change that state exactly as `Step` says.
  - `ResponseHeadFor` is `httpResponseHead`. `FramedHead` and `FrameHead` give the head that `writeResponse` computes. `Emitted` gives what it writes.
- `Handle` (handle.dfy): `ChopPrefix`, `ContainsDotDot`, and `SelectBindTarget` for `Handle.init`.

## Behaviour reproduced as the code has it

In several places the code and the design intent differ. The model follows
the code:

- `writeResponse` computes a framed head but writes the response's own head (HTTPHandler.swift:129 and :132). The framed head, with its recomputed `content-length` and `content-type`, is never sent.
  - `FramedHead` states what the framed head would contain.
  - `Emitted` states what is actually written.
  - `WrittenHeadIsUnframed` exhibits the difference.
- After a response, the connection is closed when `keepAlive` is true (HTTPHandler.swift:139-141). The intent is the opposite.
  - `EndStep` and `RequestCycle` state the code's behaviour: an HTTP/1.1 request without options is answered and then closed, and an HTTP/1.1 `Connection: close` request leaves the connection open.
- A matched route with a missing `Fn-*` header terminates the process (Router.swift:29-32). There is no 400 response. `Respond` yields `Trapped`, and the handler records `aborted`.
- A declared length of 0, a negative length or an unparsable length allocates no buffer (HTTPHandler.swift:81-85). Body chunks are then dropped, and the router sees a request without a body.
- `httpResponseHead` is never called. Every response that is written is HTTP/1.1 (`NewResponse`), whatever the request's version. The keep-alive mirroring of `ResponseHeadFor` is modelled and proved on its own.
- A declared length over 50,000,000 closes the connection. Any earlier pending request stays as it was (HTTPHandler.swift:75-78).

## Model

| member | source | states |
|---|---|---|
| `Strings.ParseInt` | Sources/fdk-swift/HTTPHandler.swift:68 | `Int(text)` yields only values within the 64-bit `Int` range, and a digit string whose value fits parses to that value |
| `Strings.ParseIntSpec` | Sources/fdk-swift/HTTPHandler.swift:68 | `Int(text)` succeeds exactly when the text is an optional sign followed by one or more decimal digits whose signed value fits the 64-bit `Int` range, and then gives that signed value |
| `Strings.ParseIntRejects` | Sources/fdk-swift/HTTPHandler.swift:68 | "", "+", "-", "1a", " 5" and "--5" do not parse, so such a content-length counts as 0 |
| `Strings.ParseIntSigned` | Sources/fdk-swift/HTTPHandler.swift:68 | "-5" parses to -5, "+7" and "007" to 7 |
| `Strings.ShowNat` | Sources/fdk-swift/HTTPHandler.swift:122 | `String(n)` is a non-empty string of decimal digits whose value is `n`, with no leading zero unless `n` is 0 |
| `Strings.ParseShowNat` | Sources/fdk-swift/HTTPHandler.swift:122 | round trip: parsing the rendered length of a body gives the length back |
| `Strings.ParseShowNegative` | Sources/fdk-swift/HTTPHandler.swift:68 | a magnitude rendered after "-" parses back to the negative value, down to `Int.min` |
| `Strings.Utf8RoundTrip` | Sources/fdk-swift/HTTPModels.swift:107-109 | decoding the UTF-8 bytes that `writeString` stores gives the text back, and there are `utf8.count` of them |
| `Headers.ValuesAt` | Sources/fdk-swift/Router.swift:29-32 | `headers[name]` lists exactly the values of the entries with that name; `first(name:)` is the earliest such entry, and None means no entry has the name |
| `Headers.Remove` | Sources/fdk-swift/HTTPHandler.swift:119 | after `remove(name:)` no value is left under that name, and every other name keeps its values |
| `Headers.Add` | Sources/fdk-swift/HTTPHandler.swift:122 | `add(name:value:)` appends one value under that name and changes no other name's values |
| `HttpModels.RequestBody` | Sources/fdk-swift/HTTPModels.swift:56-62 | `HTTPRequest.body` is None exactly when `bodyBuffer` is None; otherwise it has the same bytes and no MIME type |
| `HttpModels.NewResponse` | Sources/fdk-swift/HTTPModels.swift:78-85 | a response is always HTTP/1.1, with the given status, the given headers (empty by default) and the given body unchanged |
| `HttpModels.BufferBody` | Sources/fdk-swift/HTTPModels.swift:101-104 | `HTTPBody(buffer:)` reads back its bytes through `data`; the MIME type is the one given, None by default |
| `HttpModels.TextBody` | Sources/fdk-swift/HTTPModels.swift:107-112 | `HTTPBody(text:)` holds bytes that decode as UTF-8 to the text, `utf8.count` of them, with MIME type text/plain |
| `HttpModels.AsciiTextBody` | Sources/fdk-swift/HTTPModels.swift:107-109 | for ASCII text the body has one byte per character, equal to its code |
| `HttpModels.DataBody` | Sources/fdk-swift/HTTPModels.swift:115-120 | round trip: `HTTPBody(data: d, mimeType: m).data == d`, and the MIME type is `m` (None by default) |
| `HttpModels.JsonBody` | Sources/fdk-swift/HTTPModels.swift:123-133 | `HTTPBody(json:pretty:)` succeeds exactly when the encoder does, holds the encoder's bytes, and is labelled application/json |
| `HttpModels.JsonMimeIgnoresPretty` | Sources/fdk-swift/HTTPModels.swift:126-132 | the MIME type of a JSON body does not depend on `pretty` |
| `HttpModels.LiteralBody` | Sources/fdk-swift/HTTPModels.swift:136-138 | `HTTPBody(stringLiteral:)` equals `HTTPBody(text:)` on the same string |
| `Routing.FirstMissing` | Sources/fdk-swift/Router.swift:28-32 | None exactly when all four `Fn-*` headers are present; otherwise it names a header that `first(name:)` cannot find |
| `Routing.FirstMissingOrder` | Sources/fdk-swift/Router.swift:28-32 | the header named is one of the four, and every header the context reads before it is present, so it is the force-unwrap that traps first |
| `Routing.ContextOf` | Sources/fdk-swift/Router.swift:28-34 | the context holds the first value of each of Fn-Call-Id, Fn-Deadline, Fn-Http-Method and Fn-Http-Request-Url, and the full header list |
| `Routing.Respond` | Sources/fdk-swift/Router.swift:37-43 | every response the router builds is HTTP/1.1 with no headers |
| `Routing.RespondCases` | Sources/fdk-swift/Router.swift:22-45 | not GET/POST or no "/call" prefix gives 404 "Not found" with no call of the function; a matched route with a missing header traps, with or without a function; no function gives 200 "default ok"; otherwise the function is called once with the context and `request.body`, and its result, even None, is the 200 body |
| `Routing.PrefixRouting` | Sources/fdk-swift/Router.swift:25-26 | any GET or POST whose URI starts with "/call", such as "/callback?x", takes the routed branch |
| `Routing.CallsOnlyWhenRouted` | Sources/fdk-swift/Router.swift:35-38 | the function is called at most once per request, and only on a matched route with all headers and a registered function |
| `Connection.ResponseHeadFor` | Sources/fdk-swift/HTTPHandler.swift:15-35 | the head mirrors the request's version and has the given status; a preset keep-alive or close leaves the headers unchanged; otherwise HTTP/1.0 keep-alive adds exactly one `Connection: keep-alive`, HTTP/1.n (n ≥ 1) not keep-alive adds exactly one `Connection: close`, and every other case leaves the headers unchanged |
| `Connection.ConnectionNamed` | Sources/fdk-swift/HTTPHandler.swift:17-25 | the "Connection" header the policy adds is found under the name "connection", compared without case |
| `Connection.KeepAliveFor10` | Sources/fdk-swift/HTTPHandler.swift:22-25 | an HTTP/1.0 request with a keep-alive option and no close option, answered without a preset option, gets one more `connection` value, "keep-alive" |
| `Connection.CloseFor11` | Sources/fdk-swift/HTTPHandler.swift:22-28 | an HTTP/1.1 request with a close option, answered without a preset option, gets one more `connection` value, "close" |
| `Connection.NoConnectionHeader` | Sources/fdk-swift/HTTPHandler.swift:29-31 | HTTP/1.1 without options, or HTTP/1.0 without keep-alive, leaves the caller's headers as they are |
| `Connection.DeclaredLength` | Sources/fdk-swift/HTTPHandler.swift:63-71 | the declared content length is always a 64-bit `Int` value |
| `Connection.DeclaredLengthCases` | Sources/fdk-swift/HTTPHandler.swift:67-71 | the declared length is the first content-length value parsed as `Int`, and 0 when that header is absent or does not parse |
| `Connection.HeadStep` | Sources/fdk-swift/HTTPHandler.swift:60-89 | a head sets keep-alive from the request first; over 50,000,000 it closes the connection and keeps the old pending request; otherwise it stores a new pending request, with an empty buffer only when the declared length is positive; nothing is written |
| `Connection.ChunksAppend` | Sources/fdk-swift/HTTPHandler.swift:91-93 | while a buffer is pending, chunks c1..cn leave it equal to the old buffer followed by c1 + ... + cn, in arrival order, and change nothing else |
| `Connection.ChunksDropped` | Sources/fdk-swift/HTTPHandler.swift:81-93 | without a pending buffer, body chunks are discarded and the state does not change |
| `Connection.EndStep` | Sources/fdk-swift/HTTPHandler.swift:95-102 | an end with nothing pending changes nothing; otherwise the router gets the pending request once; on a response the request is cleared, the response is written after earlier output, and the connection closes exactly when keep-alive is set |
| `Connection.CycleHead` | Sources/fdk-swift/HTTPHandler.swift:60-89 | a head declaring a positive length within the limit sets keep-alive and starts a pending request with an empty buffer |
| `Connection.CycleEnd` | Sources/fdk-swift/HTTPHandler.swift:95-102 | the end of a pending request that the router answers clears it, records it as routed, writes the response and closes on keep-alive |
| `Connection.RequestCycle` | Sources/fdk-swift/HTTPHandler.swift:56-104 | head, chunks and end: the router sees the head with the chunks concatenated in order, the response is written, and the connection ends up closed if the request was keep-alive |
| `Connection.OversizedRequest` | Sources/fdk-swift/HTTPHandler.swift:73-78 | a declared length over 50,000,000 closes the connection, and no response part is written whatever body bytes follow |
| `Connection.FramedHead` | Sources/fdk-swift/HTTPHandler.swift:118-127 | the framed head keeps version and status and drops the caller's content-length. With a body it has exactly one content-length, equal to the byte count; with a body MIME type it has exactly one content-type, equal to that type; without a body it has no content-length. Every other header is unchanged |
| `Connection.FrameHead` | Sources/fdk-swift/HTTPHandler.swift:118-127 | the remove/add edits on a local copy of the head produce the framed head |
| `Connection.FramedLengthReadsBack` | Sources/fdk-swift/HTTPHandler.swift:122 | reading the framed head's content-length back as a request's is read gives the body's byte count, and 0 without a body |
| `Connection.Emitted` | Sources/fdk-swift/HTTPHandler.swift:129-135 | what is written is the response's own head first, then the body bytes when there is a body, then an end part with no trailers |
| `Connection.WrittenHeadIsUnframed` | Sources/fdk-swift/HTTPHandler.swift:129-132 | when the response head has no content-length, the head written has none, though the framed head has one |
| `Connection.HttpHandler.constructor` | Sources/fdk-swift/HTTPHandler.swift:43-53 | a new handler keeps its router, has no pending request, keep-alive off, and has written nothing |
| `Connection.HttpHandler.ChannelRead` | Sources/fdk-swift/HTTPHandler.swift:56-104 | the in-place updates of `request`, `keepAlive`, the buffer and the output change the connection state exactly as `Step` says |
| `Connection.HttpHandler.OnHead` | Sources/fdk-swift/HTTPHandler.swift:60-89 | sets `keepAlive`, reads the first content-length as `Int` (0 when absent or unparsable), closes above 50,000,000 and otherwise stores a pending request with a buffer only for a positive length, exactly as `Step` says for a head |
| `Connection.HttpHandler.OnBody` | Sources/fdk-swift/HTTPHandler.swift:91-93 | appends the chunk to the pending buffer when there is one and otherwise changes nothing, as `Step` says for a body part |
| `Connection.HttpHandler.OnEnd` | Sources/fdk-swift/HTTPHandler.swift:95-102 | with nothing pending changes nothing; otherwise routes the pending request, clears it and writes the response, as `Step` says for an end part |
| `Connection.HttpHandler.WriteResponse` | Sources/fdk-swift/HTTPHandler.swift:107-145 | it returns the framed head, appends exactly the emitted parts to the output, and afterwards the connection is closed if it was already closed or keep-alive is set; nothing else changes |
| `Connection.HttpHandler.Emit` | Sources/fdk-swift/HTTPHandler.swift:129-135 | the writes of `writeResponse` append head, body (if any) and end, in that order |
| `Connection.HttpHandler.WritePart` | Sources/fdk-swift/HTTPHandler.swift:109-115 | one `context.write` appends one part to the output |
| `Handle.ChopPrefix` | Sources/fdk-swift/Handle.swift:126-132 | the result is present exactly when `s` starts with the prefix, and then prefix + result == `s` |
| `Handle.ChopEmptyPrefix` | Sources/fdk-swift/Handle.swift:126-128 | chopping the empty prefix gives the string itself |
| `Handle.ChopPrefixOfConcat` | Sources/fdk-swift/Handle.swift:126-128 | chopping `p` off `p + r` gives `r` |
| `Handle.ContainsDotDot` | Sources/fdk-swift/Handle.swift:134-141 | true exactly when some index i has '.' at i and at i + 1; so false for strings shorter than 2 |
| `Handle.SelectBindTarget` | Sources/fdk-swift/Handle.swift:41-51 | without `FN_LISTENER` the server binds 127.0.0.1 port 8888; with "unix:" + p it binds the unix socket p; with any other value the force-unwrap traps |

## Left out

- `Handle.run`: the NIO bootstrap, socket options, event-loop group, bind, wait and shutdown are I/O and concurrency (Handle.swift:56-102).
- Logging, the stderr `TextOutputStream` extension and the `DefaultStringInterpolation` extension are I/O.
- Futures and promises are left out. `Respond` returns its response directly, and `writeResponse` appends to an output log. `completeResponse` is never called and works through promises. The `channelReadComplete` flush is I/O.
- The `eventLoop` stored in `HTTPRequest` is left out: it is used only to build futures.
- Foundation's `JSONEncoder` is a function parameter of `JsonBody`. `decodeJSON`, a foreign decoder call, is not part of this model.
- NIO internals are not part of this model. `HTTPHeaders` is a pair list. Only the methods GET and POST are distinguished from the rest. A status is its numeric code. The whitespace trimmed by the canonical form is space, tab, CR and LF.
- `HttpModels.IsKeepAlive`: NIO's own `isKeepAlive` is not part of this model. The flag is defined by section 6.3 of RFC 7230 over the lower-cased connection options.
- `Strings.Lower`: folds ASCII letters only, where Swift's `lowercased()` folds all of Unicode. Header names and connection options are compared with it.
- `Handle.ChopPrefix`: compares and cuts by Unicode scalar. Swift compares scalars too, but cuts `prefix.count` Characters (grapheme clusters) off `self` (Handle.swift:128). The two differ whenever the Characters of `s` do not line up with the prefix scalar by scalar. For example, "unix:" followed by a combining accent then "/tmp/s" gives "/tmp/s" in Swift, because the accent joins the colon into one Character, but gives the accent then "/tmp/s" here.
- A string is a sequence of Unicode scalars; Swift's `String` is a sequence of Characters (grapheme clusters).
- `Routing.Matches`: `starts(with: "/call")` is compared scalar by scalar here. Swift compares Characters (Router.swift:26), so "/call" followed by a combining accent is a 404 in Swift but routed here.
- `Handle.ContainsDotDot`: steps through Unicode scalars. Swift steps through Characters (Handle.swift:135-136), so ".." followed by a combining accent is false in Swift (the second dot and the accent are one Character) but true here.
- Buffer capacity reservation is left out: a buffer is its bytes, and its `writerIndex` is their count.
- The blocking call of the function on the event loop, and threading in general, are concurrency; there is nothing to verify sequentially.
- `Context` is a datatype in `Routing`, with non-optional fields, because the router always fills them.
- The package manifests and the example function are build files and a demo.
- A second head before the end of a request is not defended against in the code. The model does what the code does: the new head replaces the pending request.
- A closed connection is not modelled as refusing input: `Step` and `Run` accept parts after `closed` is set, and writes after it are logged. The handler never checks the flag, and NIO does not deliver parts after a close.
