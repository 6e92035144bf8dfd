# elost http-client, modelled in Dafny

This project models the core of the `net.elost.http_client` Java library.
`RestClient` makes JSON calls against an endpoint. `HttpClientImpl` sends one
request over an `HttpURLConnection` and turns the answer into an
`HttpResponse` or an `HttpCallException`. `StreamUtil` drains a stream into a
byte array. `HttpResponse` is the response object with its in-place
`Builder`.

Modules, one per concern:

- `Base` (base.dfy): Java null as `Option`, a call that returns or throws as
  `Result`/`Outcome`, the exception kinds, `HttpMethod`, and Java's signed
  `byte`.
- `Text` (text.dfy): the `String` operations the client relies on (`contains`,
  ASCII `toLowerCase`, `trim`, decimal rendering of an `int` and of null).
- `LineReader` (line_reader.dfy): `BufferedReader.readLine` as a function
  (terminators `\n`, `\r`, `\r\n`; a final unterminated line is returned),
  and an independent reference `Normalized` for what re-joining its lines
  yields.
- `StreamUtil` (stream_util.dfy): `toByteArray`, the chunked `copy` loop
  over an 8192-byte buffer, and `validateArguments`. These are imperative,
  over an `InputStream` class that delivers scripted chunks and then ends or
  fails, and a `ByteArrayOutputStream` class.
- `UrlConnection` (url_connection.dfy): the connection as the client sees
  it. An `Exchange` value scripts the server's side: the write outcome, the
  status, the Content-Type, the body and how reading it ends. A `Connection`
  object records the bodies written and whether it was disconnected.
- `HttpClientImpl` (http_client_impl.dfy): the whole decision of
  `trySendRequest` as a function of the `Exchange` (`TrySendRequest`). It is
  also performed step by step on a `Connection`, including the
  `readResultString` loop, and proved equal to that function.
- `HttpResponse` (http_response.dfy): the response class, its `Builder`
  (one shared object, mutated in place) and `toString`.
- `RestClient` (rest_client.dfy): `getUrl`, `checkResponseCode`, and the
  call order of the `sendRequest` overloads. The transport and the JSON
  parser are function parameters.

The model follows the code as written; in particular:
- the request body is written for every method, GET included;
- the body is always read from `getInputStream()`, with no error-stream
  branch for 4xx and 5xx statuses;
- `RestClient` passes the bare `path` to the transport, and `getUrl` is
  never called, so the endpoint URL is not used.

## Model

| member | source | states |
|---|---|---|
| StreamUtil.ToByteArray | src/main/java/net/elost/http_client/StreamUtil.java:19-26 | returns every byte the stream yields, in order, or the stream's `IOException`; a null stream throws a null dereference before any argument check; the stream ends up drained |
| StreamUtil.Copy | src/main/java/net/elost/http_client/StreamUtil.java:40-53 | after validation, everything remaining in `from` is appended to `to` and the returned total is its length, which is the sum of the chunk sizes; a failing stream throws after writing what it delivered; a null argument changes nothing and throws the validation error with its exact message |
| StreamUtil.FlattenLength | src/main/java/net/elost/http_client/StreamUtil.java:43-52 | the bytes of a chunked stream number the sum of the chunk sizes; `Copy` uses it to state its total as that sum |
| StreamUtil.ValidateArguments | src/main/java/net/elost/http_client/StreamUtil.java:55-70 | throws exactly when `from` or `to` is null, with the exact message for each and both messages joined by `and` without spaces when both are null |
| HttpClientImpl.SendRequest | src/main/java/net/elost/http_client/HttpClientImpl.java:37-52 | the outcome equals `TrySendRequest` on the connection's exchange; the body is written once, exactly when the write succeeds; the connection is disconnected on every path |
| HttpClientImpl.TrySendRequestOn | src/main/java/net/elost/http_client/HttpClientImpl.java:54-66 | performing write, status, classification and read on the connection yields exactly `TrySendRequest`, without disconnecting |
| HttpClientImpl.TrySendRequest | src/main/java/net/elost/http_client/HttpClientImpl.java:54-66 | a response exactly when the write succeeds, the status is read, Content-Type is present and the body is read to its end; the response carries method, URL, input and status; the body is binary exactly for an octet stream, with the stream's bytes, otherwise the normalised text; every failure is the error of the first step that fails |
| HttpClientImpl.MethodOnlyLabelsResponse | src/main/java/net/elost/http_client/HttpClientImpl.java:54-66 | GET, POST, PUT and DELETE write the body alike and meet the same outcome; the method only labels the response |
| HttpClientImpl.SendRequestBody | src/main/java/net/elost/http_client/HttpClientImpl.java:85-101 | writes the body whatever the method, and its outcome is `SendRequestBodyOutcome` |
| HttpClientImpl.SendRequestBodyOutcome | src/main/java/net/elost/http_client/HttpClientImpl.java:85-101 | passes exactly when the write succeeds; an unknown host gives the connect error, and any other I/O failure gives the `logSendRequestIOException` error, never a response |
| HttpClientImpl.ConnectFailure | src/main/java/net/elost/http_client/HttpClientImpl.java:93-96 | the connect error is an `HttpCallException` naming the URL after the text "Failed to connect to url: " |
| HttpClientImpl.GetResponseCode | src/main/java/net/elost/http_client/HttpClientImpl.java:103-110 | the status, or "Can't get response code, assuming failure" when it cannot be read |
| HttpClientImpl.TryReadResultString | src/main/java/net/elost/http_client/HttpClientImpl.java:112-122 | the normalised body text, or the read error naming the URL when the stream fails |
| HttpClientImpl.TryReadBinaryResult | src/main/java/net/elost/http_client/HttpClientImpl.java:124-134 | the stream's bytes, or the same read error naming the URL when the stream fails |
| HttpClientImpl.ReadFailure | src/main/java/net/elost/http_client/HttpClientImpl.java:117-120 | the read error is an `HttpCallException` ending in the URL |
| HttpClientImpl.ReadResultString | src/main/java/net/elost/http_client/HttpClientImpl.java:136-148 | the loop appending each line and a `"\n"` ends with the normalised text, or with the stream's `IOException` |
| HttpClientImpl.ReadResultText | src/main/java/net/elost/http_client/HttpClientImpl.java:136-148 | the re-joined lines are the normalised text: empty exactly for an empty body, and ending in `"\n"` otherwise |
| HttpClientImpl.TrimRecoversSingleLine | src/main/java/net/elost/http_client/HttpClientImpl.java:141-147 | a one-line body comes back with one `"\n"` added, and `trim` recovers it |
| HttpClientImpl.IsOctetStream | src/main/java/net/elost/http_client/HttpClientImpl.java:155-157 | binary exactly when the lower-cased Content-Type contains `application/octet-stream` somewhere; a missing header throws a null dereference |
| HttpClientImpl.IsOctetStreamIgnoresCase | src/main/java/net/elost/http_client/HttpClientImpl.java:155-157 | values that lower-case alike classify alike |
| HttpClientImpl.IsOctetStreamExamples | src/main/java/net/elost/http_client/HttpClientImpl.java:155-157 | a mixed-case octet-stream type with parameters is binary; JSON and text types are not |
| HttpClientImpl.LogSendRequestIOException | src/main/java/net/elost/http_client/HttpClientImpl.java:159-175 | always an error: the status error, the null dereference or the read error when that enrichment step fails, else the enriched error with the status and `Binary Content` or the normalised text |
| HttpClientImpl.EnrichedFailure | src/main/java/net/elost/http_client/HttpClientImpl.java:168-174 | the enriched message carries URL, input, status and response body in that order |
| LineReader.ReadLine | src/main/java/net/elost/http_client/HttpClientImpl.java:143 | `readLine` returns null exactly at the end of the input; otherwise it returns a line without terminators, and the input is that line, one terminator (or the end) and the rest |
| LineReader.ReadLineUnique | src/main/java/net/elost/http_client/HttpClientImpl.java:143 | any split of the input into a terminator-free line, one terminator and a rest is the one `readLine` makes |
| LineReader.AppendEachLinesIsNormalized | src/main/java/net/elost/http_client/HttpClientImpl.java:141-147 | re-joining the lines with `"\n"` equals the reference normalisation: `\r\n` and lone `\r` become `\n`, and a final `\n` is added when missing |
| LineReader.NormalizedIdempotent | src/main/java/net/elost/http_client/HttpClientImpl.java:141-147 | normalising a normalised text changes nothing |
| Text.ContainsIff | src/main/java/net/elost/http_client/HttpClientImpl.java:156 | the `contains` scan succeeds exactly when the substring occurs at some index |
| Text.IntToStringInjective | src/main/java/net/elost/http_client/RestClient.java:118-120 | distinct status codes render as distinct text |
| HttpResponse.Response.constructor | src/main/java/net/elost/http_client/HttpResponse.java:20-28 | a new response holds the five request-side values and null bodies |
| HttpResponse.Builder.constructor | src/main/java/net/elost/http_client/HttpResponse.java:22-28 | sets method, request body and code from the arguments and URL and headers from the connection; both bodies are null |
| HttpResponse.Builder.ResponseBody | src/main/java/net/elost/http_client/HttpResponse.java:30-33 | changes only the text body of the shared response and returns the same builder |
| HttpResponse.Builder.ResponseBinaryBody | src/main/java/net/elost/http_client/HttpResponse.java:35-38 | changes only the binary body of the shared response and returns the same builder |
| HttpResponse.Builder.Build | src/main/java/net/elost/http_client/HttpResponse.java:40-42 | returns the builder's one response object, not a copy |
| HttpResponse.BuildTwice | src/main/java/net/elost/http_client/HttpResponse.java:40-42 | two builds return the same object |
| HttpResponse.SetAfterBuild | src/main/java/net/elost/http_client/HttpResponse.java:20-42 | a body set after `build()` is visible through the response built before |
| HttpResponse.GettersReturnFields | src/main/java/net/elost/http_client/HttpResponse.java:48-74 | each getter returns the field it is named after |
| HttpResponse.Response.ToString | src/main/java/net/elost/http_client/HttpResponse.java:76-87 | starts with the method and URL lines, then request body, code and text body (`null` when absent), and ends with the binary length and unit |
| HttpResponse.SizeUnit | src/main/java/net/elost/http_client/HttpResponse.java:78 | `byte` exactly for a one-byte binary body, `bytes` otherwise, a null body included |
| HttpResponse.BinaryBodyLength | src/main/java/net/elost/http_client/HttpResponse.java:79 | 0 for a null binary body, its length otherwise |
| HttpResponse.LengthLineExamples | src/main/java/net/elost/http_client/HttpResponse.java:78-86 | the last line reads `0 bytes`, `1 byte` and `2 bytes` for no body, one byte and two bytes |
| RestClient.SlashTerminated | src/main/java/net/elost/http_client/RestClient.java:102-105 | the endpoint, extended by `/` only when it does not end in one |
| RestClient.GetUrl | src/main/java/net/elost/http_client/RestClient.java:101-114 | starts with the endpoint; the normalised base ends in `/`; then the path follows, without its leading `/` when it is longer than one character |
| RestClient.GetUrlExamples | src/main/java/net/elost/http_client/RestClient.java:101-114 | `http://x/api` with `/foo` and `http://x/api/` with `foo` both give `http://x/api/foo`; path `/` gives a URL ending in `//`; the empty path gives the base |
| RestClient.GetUrlIgnoresLeadingSlash | src/main/java/net/elost/http_client/RestClient.java:107-111 | a leading slash on a longer path makes no difference |
| RestClient.GetUrlIgnoresTrailingSlash | src/main/java/net/elost/http_client/RestClient.java:102-105 | a trailing slash on the endpoint makes no difference |
| RestClient.GetUrlEdgePaths | src/main/java/net/elost/http_client/RestClient.java:107-111 | path `/` is not stripped, so the URL ends in `//`; the empty path gives the slash-terminated endpoint |
| RestClient.GetUrlSingleSeparator | src/main/java/net/elost/http_client/RestClient.java:101-114 | unless the path starts with `//` or is `/`, no second slash follows the separator |
| RestClient.CheckResponseCode | src/main/java/net/elost/http_client/RestClient.java:116-123 | passes exactly the 2xx statuses; otherwise fails with the error naming URL, status and request body |
| RestClient.StatusFailure | src/main/java/net/elost/http_client/RestClient.java:118-121 | the message names the URL, then the status, then the request body |
| RestClient.CheckResponseCodeBoundaries | src/main/java/net/elost/http_client/RestClient.java:117 | 199 and 300 fail; 200 and 299 pass |
| RestClient.CheckResponseCodeIgnoresBody | src/main/java/net/elost/http_client/RestClient.java:116-123 | responses that differ only in body or method are checked alike |
| RestClient.StatusFailureIdentifiesCode | src/main/java/net/elost/http_client/RestClient.java:118-121 | equal errors for one URL and input come from equal status codes |
| RestClient.RestRequest | src/main/java/net/elost/http_client/RestClient.java:83 | the transport receives the path unchanged, the JSON input and `application/json` |
| RestClient.ResponseBody | src/main/java/net/elost/http_client/RestClient.java:127 | the text body, or null for a binary response |
| RestClient.MalformedResponse | src/main/java/net/elost/http_client/RestClient.java:129-134 | the message names the method and the URL, and ends with the body (`null` when absent) in brackets |
| RestClient.DeserializeResult | src/main/java/net/elost/http_client/RestClient.java:125-135 | the parsed body exactly when the JSON library accepts it, else the malformed-response error |
| RestClient.SendRequest | src/main/java/net/elost/http_client/RestClient.java:81-85 | the void call passes exactly when the transport answers with a 2xx status; a transport error passes through; otherwise the status check's error |
| RestClient.SendRequestFor | src/main/java/net/elost/http_client/RestClient.java:87-99 | a value exactly when the transport answers 2xx and the body parses; transport errors, then the status check, then the parser decide the error |
| RestClient.CheckBeforeDeserialise | src/main/java/net/elost/http_client/RestClient.java:87-92 | when the status check fails, the parser is not consulted: any two parsers give the same outcome |
| RestClient.VoidAndTypedAgree | src/main/java/net/elost/http_client/RestClient.java:81-99 | a typed call fails with the void call's error whenever the void call fails, and succeeds only when it passes |
| RestClient.TransportConsultedOnce | src/main/java/net/elost/http_client/RestClient.java:81-99 | the outcome depends on the transport only through its answer to the single JSON request for `path` |

## Left out

- Connection setup (`connect`): URL parsing, `openConnection`, request method and header properties, and timeouts are network I/O. The connection is a given `Exchange`, and a setup failure is not modelled.
- Charset handling: the UTF-8 writer and the platform-charset reader. `Exchange.decoded` is the text the reader produces, given separately from the bytes, and the two share how the stream ends.
- Gson: serialisation of the input, deserialisation, and the `LOWER_CASE_WITH_UNDERSCORES` naming policy. The input is given as a JSON string, and the parser is a function parameter that accepts or reports a syntax error. The `Class` and `Type` overloads differ only in what they hand Gson, so `SendRequestFor` stands for both.
- The twelve public `get`/`post`/`put`/`delete` methods only fix the method argument of `SendRequest`/`SendRequestFor`, which take it as a parameter.
- The four-argument `HttpClientImpl.sendRequest` only adds an empty header map, and headers are part of connection setup.
- `HttpClient.sendRequestGetStream` has no implementation in the library. `HttpClient` itself is an interface.
- `HttpClientImpl` calls a five-argument `HttpResponse` constructor that `HttpResponse.java` does not declare. Its response is modelled as the value `HttpClientImpl.Response`, with a body that is either text or bytes; the class `HttpResponse.Response` models `HttpResponse.java` itself.
- The private no-argument `HttpResponse` constructor followed by the `Builder` field assignments is one step, `HttpResponse.Response.constructor`. The half-initialised object cannot be observed.
- Exception causes are not kept, only the kind and the message.
- A null request body is not modelled. `RestClient` always passes Gson output, but the public `HttpClientImpl.sendRequest` accepts a null input. Writing it then throws a `NullPointerException`, which is not an `IOException`, so it escapes the write's error handling uncaught. The model's `input` is always a string.
- `toLowerCase`: only ASCII letters are lower-cased; locale-dependent and non-ASCII mappings are not modelled.
- StreamUtil.Copy: the total is an unbounded integer, so the overflow of Java's `long` after 2^63 bytes is not modelled.
- StreamUtil.ToByteArray: the `available()` capacity hint has no visible effect and is not modelled. The array is a value, so aliasing of the returned `byte[]` is not modelled.
- HttpResponse getters: each is a field read, so they carry no contract of their own. `GettersReturnFields` states it.
- `HttpMethod.java` is not part of this model. `HttpMethod` is taken to be the enumeration `GET`, `POST`, `PUT`, `DELETE`, with `name()` giving the identifier.
