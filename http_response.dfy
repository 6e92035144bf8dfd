/** `HttpResponse` and its `Builder`.

    The builder owns one response object from the start: each setter
    changes that object in place and returns the builder itself, and
    `build()` hands out that same object every time, so a setter called
    after `build()` is visible through every response built earlier. */
module HttpResponse {
  import opened Base
  import opened Text
  import opened UrlConnection

  class Response {
    var httpMethod: HttpMethod
    var url: string
    var requestBody: string
    var code: int
    var responseBody: Option<string>
    var responseBinaryBody: Option<seq<byte>>
    var headers: map<string, seq<string>>

    /** The object the builder creates and fills in before anyone else can
        see it: the five request-side fields set, both bodies still null. */
    constructor (httpMethod: HttpMethod, url: string, requestBody: string, code: int,
                 headers: map<string, seq<string>>)
      ensures this.httpMethod == httpMethod && this.url == url
      ensures this.requestBody == requestBody && this.code == code && this.headers == headers
      ensures responseBody == None && responseBinaryBody == None
    {
      this.httpMethod := httpMethod;
      this.url := url;
      this.requestBody := requestBody;
      this.code := code;
      this.headers := headers;
      responseBody := None;
      responseBinaryBody := None;
    }

    function GetHttpMethod(): HttpMethod reads this { httpMethod }
    function GetUrl(): string reads this { url }
    function GetRequestBody(): string reads this { requestBody }
    function GetCode(): int reads this { code }
    function GetResponseBody(): Option<string> reads this { responseBody }
    function GetResponseBinaryBody(): Option<seq<byte>> reads this { responseBinaryBody }
    function GetHeaders(): map<string, seq<string>> reads this { headers }

    /** `toString`: the request lines (method, URL), then the response
        lines (request body, code, text body), then the binary body's length
        with its unit, in that order. */
    function ToString(): (s: string)
      reads this
      ensures StartsWith(s, RequestLines(httpMethod, url))
      ensures OccursAt(s, ResponseLines(requestBody, code, responseBody), |RequestLines(httpMethod, url)|)
      ensures EndsWith(s, LengthLine(responseBinaryBody))
    {
      var head := RequestLines(httpMethod, url);
      var middle := ResponseLines(requestBody, code, responseBody);
      var tail := LengthLine(responseBinaryBody);
      ThreeParts(head, middle, tail);
      head + middle + tail
    }
  }

  function RequestLines(httpMethod: HttpMethod, url: string): string {
    "request method: " + httpMethod.Name() + " \n" + "request url: " + url + " \n"
  }

  function ResponseLines(requestBody: string, code: int, responseBody: Option<string>): string {
    "request body: " + requestBody + " \n"
      + "response code: " + IntToString(code) + " \n"
      + "response body: " + NullableToString(responseBody) + " \n"
  }

  function LengthLine(binaryBody: Option<seq<byte>>): string {
    "response binary body length: " + IntToString(BinaryBodyLength(binaryBody)) + " " + SizeUnit(binaryBody)
  }

  lemma ThreeParts(a: string, b: string, c: string)
    ensures StartsWith(a + b + c, a) && OccursAt(a + b + c, b, |a|) && EndsWith(a + b + c, c)
  {
  }

  /** The unit `toString` prints: singular for exactly one byte, plural
      otherwise, a null body included. */
  function SizeUnit(binaryBody: Option<seq<byte>>): (unit: string)
    ensures unit == "byte" <==> binaryBody.Some? && |binaryBody.value| == 1
    ensures unit == "byte" || unit == "bytes"
  {
    if binaryBody.Some? && |binaryBody.value| == 1 then "byte" else "bytes"
  }

  /** The length `toString` prints: 0 for a null body. */
  function BinaryBodyLength(binaryBody: Option<seq<byte>>): (n: nat)
    ensures binaryBody.None? ==> n == 0
    ensures binaryBody.Some? ==> n == |binaryBody.value|
  {
    if binaryBody.None? then 0 else |binaryBody.value|
  }

  /** The last line of `toString` for a response without a binary body, for
      one with a single byte, and for one with two bytes. */
  lemma LengthLineExamples(b: seq<byte>)
    ensures LengthLine(None) == "response binary body length: 0 bytes"
    ensures |b| == 1 ==> LengthLine(Some(b)) == "response binary body length: 1 byte"
    ensures |b| == 2 ==> LengthLine(Some(b)) == "response binary body length: 2 bytes"
  {
  }

  /** Each getter hands back exactly the field it is named after. */
  lemma GettersReturnFields(r: Response)
    ensures r.GetHttpMethod() == r.httpMethod && r.GetUrl() == r.url
    ensures r.GetRequestBody() == r.requestBody && r.GetCode() == r.code
    ensures r.GetResponseBody() == r.responseBody && r.GetResponseBinaryBody() == r.responseBinaryBody
    ensures r.GetHeaders() == r.headers
  {
  }

  class Builder {
    const response: Response

    /** `Builder(httpMethod, connection, requestBody, responseCode)`: the URL
        and the headers are taken from the connection. */
    constructor (httpMethod: HttpMethod, connection: Connection, requestBody: string, responseCode: int)
      ensures fresh(response)
      ensures response.httpMethod == httpMethod && response.url == connection.url
      ensures response.requestBody == requestBody && response.code == responseCode
      ensures response.headers == connection.exchange.headers
      ensures response.responseBody == None && response.responseBinaryBody == None
    {
      response := new Response(httpMethod, connection.url, requestBody, responseCode, connection.exchange.headers);
    }

    /** `responseBody(s)`: sets only the text body and returns this builder. */
    method ResponseBody(responseBody: Option<string>) returns (b: Builder)
      modifies response
      ensures b == this
      ensures response.responseBody == responseBody
      ensures response.responseBinaryBody == old(response.responseBinaryBody)
      ensures response.httpMethod == old(response.httpMethod) && response.url == old(response.url)
      ensures response.requestBody == old(response.requestBody) && response.code == old(response.code)
      ensures response.headers == old(response.headers)
    {
      response.responseBody := responseBody;
      b := this;
    }

    /** `responseBinaryBody(b)`: sets only the binary body and returns this builder. */
    method ResponseBinaryBody(responseBinaryBody: Option<seq<byte>>) returns (b: Builder)
      modifies response
      ensures b == this
      ensures response.responseBinaryBody == responseBinaryBody
      ensures response.responseBody == old(response.responseBody)
      ensures response.httpMethod == old(response.httpMethod) && response.url == old(response.url)
      ensures response.requestBody == old(response.requestBody) && response.code == old(response.code)
      ensures response.headers == old(response.headers)
    {
      response.responseBinaryBody := responseBinaryBody;
      b := this;
    }

    /** `build()`: the builder's one response object, not a copy. */
    method Build() returns (r: Response)
      ensures r == response
    {
      r := response;
    }
  }

  /** Two calls of `build()` return one and the same object. */
  method BuildTwice(b: Builder) returns (first: Response, second: Response)
    ensures first == second
  {
    first := b.Build();
    second := b.Build();
  }

  /** A body set after `build()` shows through the response built before. */
  method SetAfterBuild(b: Builder, body: string) returns (built: Response)
    modifies b.response
    ensures built == b.response
    ensures built.responseBody == Some(body)
  {
    built := b.Build();
    var same := b.ResponseBody(Some(body));
  }
}
