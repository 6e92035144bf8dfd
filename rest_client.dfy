/** `RestClient`: JSON calls against one endpoint.

    Each call serialises its input, hands the method, the path, the JSON and
    the content type `application/json` to the transport, checks that the
    status is in the 2xx class (section 15.3 of RFC 9110) and only then, for
    the variants that return a value, deserialises the text body. The JSON
    library is a parameter: `fromJson` either yields a value or reports a
    syntax error. */
module RestClient {
  import opened Base
  import opened Text
  import opened HttpClientImpl

  const JsonContentType := "application/json"

  /** The endpoint URL with a `'/'` appended unless it already ends in one. */
  function SlashTerminated(endpointUrl: string): (base: string)
    ensures EndsWith(endpointUrl, "/") ==> base == endpointUrl
    ensures !EndsWith(endpointUrl, "/") ==> base == endpointUrl + "/"
    ensures StartsWith(base, endpointUrl) && EndsWith(base, "/")
  {
    if EndsWith(endpointUrl, "/") then endpointUrl else endpointUrl + "/"
  }

  /** `getUrl`: the endpoint, one separating `'/'`, then the path with one
      leading `'/'` removed, unless the path is `"/"` itself. */
  function GetUrl(endpointUrl: string, path: string): (url: string)
    ensures StartsWith(url, endpointUrl)
    ensures StartsWith(url, SlashTerminated(endpointUrl)) && url[|SlashTerminated(endpointUrl)| - 1] == '/'
    ensures StartsWith(path, "/") && |path| > 1 ==> url == SlashTerminated(endpointUrl) + path[1..]
    ensures !(StartsWith(path, "/") && |path| > 1) ==> url == SlashTerminated(endpointUrl) + path
  {
    var url := SlashTerminated(endpointUrl);
    if StartsWith(path, "/") && |path| > 1 then url + path[1..] else url + path
  }

  /** A base with or without its trailing slash and a path with or without
      its leading slash all name the same URL. */
  lemma GetUrlExamples()
    ensures GetUrl("http://x/api", "/foo") == "http://x/api/foo"
    ensures GetUrl("http://x/api/", "foo") == "http://x/api/foo"
    ensures GetUrl("http://x/api", "/") == "http://x/api//"
    ensures GetUrl("http://x/api", "") == "http://x/api/"
  {
  }

  /** A leading slash on a path of more than one character makes no
      difference. */
  lemma GetUrlIgnoresLeadingSlash(endpointUrl: string, path: string)
    requires path != [] && !StartsWith(path, "/")
    ensures GetUrl(endpointUrl, "/" + path) == GetUrl(endpointUrl, path)
  {
  }

  /** A trailing slash on the endpoint makes no difference. */
  lemma GetUrlIgnoresTrailingSlash(endpointUrl: string, path: string)
    requires !EndsWith(endpointUrl, "/")
    ensures GetUrl(endpointUrl + "/", path) == GetUrl(endpointUrl, path)
  {
  }

  /** The path `"/"` is kept, so the URL ends in `"//"`; the empty path
      gives the slash-terminated endpoint itself. */
  lemma GetUrlEdgePaths(endpointUrl: string)
    ensures EndsWith(GetUrl(endpointUrl, "/"), "//")
    ensures GetUrl(endpointUrl, "") == SlashTerminated(endpointUrl)
  {
  }

  /** Unless the path itself starts with `"//"` or is `"/"`, no second slash
      follows the separating one. */
  lemma GetUrlSingleSeparator(endpointUrl: string, path: string)
    requires !StartsWith(path, "//") && path != "/"
    ensures var base := SlashTerminated(endpointUrl);
      |GetUrl(endpointUrl, path)| > |base| ==> GetUrl(endpointUrl, path)[|base|] != '/'
  {
  }

  /** The exception `checkResponseCode` raises. */
  function StatusFailure(url: string, code: int, input: string): (e: Exception)
    ensures e.HttpCallException?
    ensures StartsWith(e.message, "Failed to call api endpoint " + url + " with status code ")
    ensures EndsWith(e.message, IntToString(code) + ", input: " + input)
  {
    var head := "Failed to call api endpoint " + url + " with status code ";
    var tail := IntToString(code) + ", input: " + input;
    assert (head + tail)[..|head|] == head;
    assert (head + tail)[|head|..] == tail;
    HttpCallException(head + tail)
  }

  /** `checkResponseCode`: passes exactly the 2xx statuses; otherwise the
      error names the URL, the status and the request body. */
  function CheckResponseCode(response: Response): (o: Outcome)
    ensures o.Pass? <==> 200 <= response.code < 300
    ensures o.Fail? ==> o.error == StatusFailure(response.url, response.code, response.requestBody)
  {
    if response.code < 200 || response.code >= 300 then
      Fail(StatusFailure(response.url, response.code, response.requestBody))
    else
      Pass
  }

  /** The boundaries of the 2xx class. */
  lemma CheckResponseCodeBoundaries(response: Response)
    ensures response.code == 199 ==> CheckResponseCode(response).Fail?
    ensures response.code == 200 ==> CheckResponseCode(response) == Pass
    ensures response.code == 299 ==> CheckResponseCode(response) == Pass
    ensures response.code == 300 ==> CheckResponseCode(response).Fail?
  {
  }

  /** The check never looks at the response body or the method. */
  lemma CheckResponseCodeIgnoresBody(a: Response, b: Response)
    requires a.url == b.url && a.requestBody == b.requestBody && a.code == b.code
    ensures CheckResponseCode(a) == CheckResponseCode(b)
  {
  }

  /** The error identifies the status: equal errors for one URL and input
      come from equal codes. */
  lemma {:induction false} StatusFailureIdentifiesCode(url: string, input: string, c1: int, c2: int)
    requires StatusFailure(url, c1, input) == StatusFailure(url, c2, input)
    ensures c1 == c2
  {
    var head := "Failed to call api endpoint " + url + " with status code ";
    var rest := ", input: " + input;
    var t1 := IntToString(c1);
    var t2 := IntToString(c2);
    var m := StatusFailure(url, c1, input).message;
    assert m == head + (t1 + rest);
    assert m == head + (t2 + rest);
    assert t1 + rest == m[|head|..] == t2 + rest;
    assert t1 == (t1 + rest)[..|t1|];
    assert t2 == (t2 + rest)[..|t2|];
    IntToStringInjective(c1, c2);
  }

  /** What the transport is asked to do. */
  datatype TransportRequest = TransportRequest(httpMethod: HttpMethod, url: string, input: string, contentType: string)

  /** What the JSON library makes of a response body. */
  datatype Parsed<T> = Parsed(value: T) | JsonSyntaxError

  /** The request every REST call sends: the path goes to the transport as
      it was given (`getUrl` is not applied), always as JSON. */
  function RestRequest(httpMethod: HttpMethod, path: string, inputJson: string): (req: TransportRequest)
    ensures req.url == path && req.contentType == JsonContentType
    ensures req.httpMethod == httpMethod && req.input == inputJson
  {
    TransportRequest(httpMethod, path, inputJson, JsonContentType)
  }

  /** `getResponseBody()` of the response the transport returns: null for a
      binary body. */
  function ResponseBody(response: Response): (body: Option<string>)
    ensures body.Some? <==> response.body.TextBody?
    ensures body.Some? ==> body.value == response.body.text
  {
    match response.body
    case TextBody(text) => Some(text)
    case BinaryBody(_) => None
  }

  /** The exception for a body the JSON library rejects. */
  function MalformedResponse(response: Response): (e: Exception)
    ensures e.HttpCallException?
    ensures StartsWith(e.message, "Malformed response for api call to [" + response.httpMethod.Name()
      + "] [" + response.url + "] : [")
    ensures EndsWith(e.message, NullableToString(ResponseBody(response)) + "]")
  {
    var head := "Malformed response for api call to [" + response.httpMethod.Name()
      + "] [" + response.url + "] : [";
    var tail := NullableToString(ResponseBody(response)) + "]";
    assert (head + tail)[..|head|] == head;
    assert (head + tail)[|head|..] == tail;
    HttpCallException(head + tail)
  }

  /** `deserializeResult`: the parsed body, or the malformed-response error. */
  function DeserializeResult<T>(response: Response, fromJson: Option<string> -> Parsed<T>): (r: Result<T>)
    ensures r.Ok? <==> fromJson(ResponseBody(response)).Parsed?
    ensures r.Ok? ==> r.value == fromJson(ResponseBody(response)).value
    ensures r.Err? ==> r.error == MalformedResponse(response)
  {
    match fromJson(ResponseBody(response))
    case Parsed(value) => Ok(value)
    case JsonSyntaxError => Err(MalformedResponse(response))
  }

  /** The void `sendRequest` (`get`, `post`, `put`, `delete` without a
      result type): send, then check the status. */
  function SendRequest(httpMethod: HttpMethod, path: string, inputJson: string,
                       transport: TransportRequest -> Result<Response>): (o: Outcome)
    ensures var sent := transport(RestRequest(httpMethod, path, inputJson));
      && (o.Pass? <==> sent.Ok? && 200 <= sent.value.code < 300)
      && (sent.Err? ==> o == Fail(sent.error))
      && (sent.Ok? ==> o == CheckResponseCode(sent.value))
  {
    match transport(RestRequest(httpMethod, path, inputJson))
    case Err(e) => Fail(e)
    case Ok(response) => CheckResponseCode(response)
  }

  /** The `sendRequest` that returns a value (the `Class` and `Type`
      overloads alike): send, check the status, then deserialise. */
  function SendRequestFor<T>(httpMethod: HttpMethod, path: string, inputJson: string,
                             transport: TransportRequest -> Result<Response>,
                             fromJson: Option<string> -> Parsed<T>): (r: Result<T>)
    ensures var sent := transport(RestRequest(httpMethod, path, inputJson));
      && (r.Ok? <==> sent.Ok? && 200 <= sent.value.code < 300 && fromJson(ResponseBody(sent.value)).Parsed?)
      && (r.Ok? ==> r.value == fromJson(ResponseBody(sent.value)).value)
      && (sent.Err? ==> r == Err(sent.error))
      && (sent.Ok? && CheckResponseCode(sent.value).Fail? ==> r == Err(CheckResponseCode(sent.value).error))
      && (sent.Ok? && CheckResponseCode(sent.value).Pass? ==> r == DeserializeResult(sent.value, fromJson))
  {
    match transport(RestRequest(httpMethod, path, inputJson))
    case Err(e) => Err(e)
    case Ok(response) =>
      match CheckResponseCode(response)
      case Fail(e) => Err(e)
      case Pass => DeserializeResult(response, fromJson)
  }

  /** The status check comes first: when it fails, the JSON library is not
      consulted, so any two parsers give the same outcome. */
  lemma CheckBeforeDeserialise<T>(httpMethod: HttpMethod, path: string, inputJson: string,
                                  transport: TransportRequest -> Result<Response>,
                                  f: Option<string> -> Parsed<T>, g: Option<string> -> Parsed<T>)
    requires SendRequest(httpMethod, path, inputJson, transport).Fail?
    ensures SendRequestFor(httpMethod, path, inputJson, transport, f)
         == SendRequestFor(httpMethod, path, inputJson, transport, g)
  {
  }

  /** A value-returning call fails with exactly the void call's error when
      the void call fails, and succeeds only when the void call does. */
  lemma VoidAndTypedAgree<T>(httpMethod: HttpMethod, path: string, inputJson: string,
                             transport: TransportRequest -> Result<Response>,
                             fromJson: Option<string> -> Parsed<T>)
    ensures SendRequest(httpMethod, path, inputJson, transport).Fail? ==>
      SendRequestFor(httpMethod, path, inputJson, transport, fromJson)
        == Err(SendRequest(httpMethod, path, inputJson, transport).error)
    ensures SendRequestFor(httpMethod, path, inputJson, transport, fromJson).Ok? ==>
      SendRequest(httpMethod, path, inputJson, transport) == Pass
  {
  }

  /** The outcome depends on the transport only through its answer to the
      one JSON request for `path`. */
  lemma TransportConsultedOnce<T>(httpMethod: HttpMethod, path: string, inputJson: string,
                                  t1: TransportRequest -> Result<Response>,
                                  t2: TransportRequest -> Result<Response>,
                                  fromJson: Option<string> -> Parsed<T>)
    requires t1(TransportRequest(httpMethod, path, inputJson, JsonContentType))
          == t2(TransportRequest(httpMethod, path, inputJson, JsonContentType))
    ensures SendRequest(httpMethod, path, inputJson, t1) == SendRequest(httpMethod, path, inputJson, t2)
    ensures SendRequestFor(httpMethod, path, inputJson, t1, fromJson)
         == SendRequestFor(httpMethod, path, inputJson, t2, fromJson)
  {
  }
}
