/** `HttpClientImpl`: sending one request over an opened connection and
    turning what comes back into a response or an exception.

    The order is fixed: write the request body (for every method, GET
    included), read the status code, decide from the Content-Type header
    whether the body is binary, then read the body from the connection's
    input stream (there is no separate error stream). The connection is
    disconnected whether the call returns or throws.

    `TrySendRequest` states the whole decision as a function of the scripted
    `Exchange`; `SendRequest` performs it step by step on a `Connection` and
    is proved to agree with it. */
module HttpClientImpl {
  import opened Base
  import opened Text
  import opened LineReader
  import opened StreamUtil
  import opened UrlConnection

  /** A response body: decoded text, or raw bytes for an octet stream. */
  datatype Body = TextBody(text: string) | BinaryBody(bytes: seq<byte>)

  /** The response `trySendRequest` builds. */
  datatype Response = Response(httpMethod: HttpMethod, url: string, requestBody: string, code: int, body: Body)

  /** The media type of an uninterpreted byte stream (section 4.5.1 of RFC 2046). */
  const OctetStream := "application/octet-stream"
  const StatusFailureMessage := "Can't get response code, assuming failure"
  const BinaryContent := "Binary Content"

  /** The error for a connection that cannot be established, raised both
      when the connection is set up and when writing the body meets an
      unknown host. */
  function ConnectFailure(url: string): (e: Exception)
    ensures e.HttpCallException?
    ensures StartsWith(e.message, "Failed to connect to url: ") && EndsWith(e.message, url)
  {
    HttpCallException("Failed to connect to url: " + url)
  }

  /** The error for a response body that cannot be read, text or binary. */
  function ReadFailure(url: string): (e: Exception)
    ensures e.HttpCallException?
    ensures StartsWith(e.message, "Can't read response from api call to ") && EndsWith(e.message, url)
  {
    HttpCallException("Can't read response from api call to " + url)
  }

  /** The error raised after a failed body write, carrying the URL, the
      request body, the status and what was read of the response. */
  function EnrichedFailure(url: string, input: string, status: int, responseBody: string): (e: Exception)
    ensures e.HttpCallException?
    ensures StartsWith(e.message, "Failed to call api endpoint [" + url + "], input: [" + input + "]")
    ensures EndsWith(e.message, "], status: [" + IntToString(status) + "], response: " + responseBody)
  {
    HttpCallException("Failed to call api endpoint [" + url + "], input: [" + input
      + "], status: [" + IntToString(status) + "], response: " + responseBody)
  }

  /** `getResponseCode`: the status, or, when the connection cannot report
      one, an error that assumes the call failed. */
  function GetResponseCode(ex: Exchange): (r: Result<int>)
    ensures ex.status.Some? ==> r == Ok(ex.status.value)
    ensures ex.status.None? ==> r == Err(HttpCallException(StatusFailureMessage))
  {
    match ex.status
    case Some(code) => Ok(code)
    case None => Err(HttpCallException(StatusFailureMessage))
  }

  /** `isOctetStream`: the body is binary exactly when the lower-cased
      Content-Type value contains `application/octet-stream`. An absent
      header is dereferenced and throws. */
  function IsOctetStream(contentType: Option<string>): (r: Result<bool>)
    ensures contentType.None? <==> r == Err(NullPointerException)
    ensures contentType.Some? ==>
      r.Ok? && (r.value <==> exists i :: OccursAt(ToLowerCase(contentType.value), OctetStream, i))
  {
    match contentType
    case None => Err(NullPointerException)
    case Some(value) =>
      ContainsIff(ToLowerCase(value), OctetStream);
      Ok(Contains(ToLowerCase(value), OctetStream))
  }

  /** The test ignores case: two values that lower-case alike classify alike,
      and a value classifies as its lower-cased form does. */
  lemma IsOctetStreamIgnoresCase(a: string, b: string)
    requires ToLowerCase(a) == ToLowerCase(b)
    ensures IsOctetStream(Some(a)) == IsOctetStream(Some(b))
    ensures IsOctetStream(Some(a)) == IsOctetStream(Some(ToLowerCase(a)))
  {
    assert ToLowerCase(ToLowerCase(a)) == ToLowerCase(a);
  }

  /** Parameters after the media type do not hide it, whatever its case;
      a textual type is not binary. */
  lemma IsOctetStreamExamples()
    ensures IsOctetStream(Some("Application/Octet-Stream; charset=binary")) == Ok(true)
    ensures IsOctetStream(Some("application/octet-stream")) == Ok(true)
    ensures IsOctetStream(Some("application/text")) == Ok(false)
    ensures IsOctetStream(Some("application/json")) == Ok(false)
  {
    var v := "Application/Octet-Stream; charset=binary";
    forall i | 0 <= i < |OctetStream|
      ensures ToLowerCase(v)[i] == OctetStream[i]
    {
      assert v[i] == "Application/Octet-Stream"[i];
    }
    assert ToLowerCase(v)[..|OctetStream|] == OctetStream;
    assert OccursAt(ToLowerCase(v), OctetStream, 0);
    assert OccursAt(ToLowerCase(OctetStream), OctetStream, 0);
  }

  /** `readResultString` as a value: every line `readLine` returns, each
      followed by `"\n"`. */
  function ReadResultText(decoded: string): (text: string)
    ensures text == Normalized(decoded)
    ensures text == [] <==> decoded == []
    ensures text != [] ==> text[|text| - 1] == '\n'
  {
    AppendEachLinesIsNormalized(decoded);
    AppendEach(Lines(decoded))
  }

  /** A one-line body comes back with a `"\n"` appended, so trimming the
      result recovers it. */
  lemma TrimRecoversSingleLine(body: string)
    requires body != [] && NoTerminator(body)
    requires body[0] > ' ' && body[|body| - 1] > ' '
    ensures ReadResultText(body) == body + "\n"
    ensures Trim(ReadResultText(body)) == body
  {
    UnterminatedLine(body);
    assert Lines(body) == [body];
    var t := body + "\n";
    assert TrimStart(t) == t;
    assert t[..|t| - 1] == body;
    assert TrimEnd(t) == TrimEnd(body);
  }

  /** `tryReadResultString`: the re-joined lines, or a read error naming the URL. */
  function TryReadResultString(url: string, ex: Exchange): (r: Result<string>)
    ensures ex.end == EndOfStream ==> r == Ok(Normalized(ex.decoded))
    ensures ex.end == IOFailure ==> r == Err(ReadFailure(url))
  {
    if ex.end == IOFailure then Err(ReadFailure(url)) else Ok(ReadResultText(ex.decoded))
  }

  /** `tryReadBinaryResult`: the stream's bytes, or a read error naming the URL. */
  function TryReadBinaryResult(url: string, ex: Exchange): (r: Result<seq<byte>>)
    ensures ex.end == EndOfStream ==> r == Ok(Flatten(ex.chunks))
    ensures ex.end == IOFailure ==> r == Err(ReadFailure(url))
  {
    match Drained(ex.chunks, ex.end)
    case Ok(bytes) => Ok(bytes)
    case Err(_) => Err(ReadFailure(url))
  }

  /** `logSendRequestIOException`: always an exception. It tries to add the
      status and the response body to the error; if either step fails, that
      step's own error is raised instead. */
  function LogSendRequestIOException(url: string, ex: Exchange, input: string): (e: Exception)
    ensures ex.status.None? ==> e == HttpCallException(StatusFailureMessage)
    ensures ex.status.Some? && ex.contentType.None? ==> e == NullPointerException
    ensures ex.status.Some? && IsOctetStream(ex.contentType) == Ok(true) ==>
      e == EnrichedFailure(url, input, ex.status.value, BinaryContent)
    ensures ex.status.Some? && IsOctetStream(ex.contentType) == Ok(false) ==>
      e == if ex.end == IOFailure then ReadFailure(url)
           else EnrichedFailure(url, input, ex.status.value, Normalized(ex.decoded))
  {
    match GetResponseCode(ex)
    case Err(statusError) => statusError
    case Ok(responseCode) =>
      match IsOctetStream(ex.contentType)
      case Err(npe) => npe
      case Ok(octet) =>
        if octet then EnrichedFailure(url, input, responseCode, BinaryContent)
        else
          match TryReadResultString(url, ex)
          case Err(readError) => readError
          case Ok(responseBody) => EnrichedFailure(url, input, responseCode, responseBody)
  }

  /** The outcome of the private `sendRequest(connection, input)`: the body
      write either succeeds or ends in an exception. */
  function SendRequestBodyOutcome(url: string, ex: Exchange, input: string): (o: Outcome)
    ensures o.Pass? <==> ex.write == Written
    ensures ex.write == UnknownHost ==> o == Fail(ConnectFailure(url))
    ensures ex.write == WriteIOFailure ==> o == Fail(LogSendRequestIOException(url, ex, input))
  {
    match ex.write
    case Written => Pass
    case UnknownHost => Fail(ConnectFailure(url))
    case WriteIOFailure => Fail(LogSendRequestIOException(url, ex, input))
  }

  /** `trySendRequest`: a response exactly when the body was written, the
      status was read, the Content-Type header is present and the body was
      read to its end. The status is read before anything about the body,
      the body is binary exactly for an octet stream, and text bodies come
      back normalised. */
  function TrySendRequest(httpMethod: HttpMethod, url: string, ex: Exchange, input: string): (r: Result<Response>)
    ensures r.Ok? <==>
      ex.write == Written && ex.status.Some? && ex.contentType.Some? && ex.end == EndOfStream
    ensures r.Ok? ==>
      && r.value.httpMethod == httpMethod && r.value.url == url && r.value.requestBody == input
      && r.value.code == ex.status.value
      && (r.value.body.BinaryBody? <==> IsOctetStream(ex.contentType) == Ok(true))
      && (r.value.body.TextBody? ==> r.value.body.text == Normalized(ex.decoded))
      && (r.value.body.BinaryBody? ==> r.value.body.bytes == Flatten(ex.chunks))
    ensures ex.write == UnknownHost ==> r == Err(ConnectFailure(url))
    ensures ex.write == WriteIOFailure ==> r == Err(LogSendRequestIOException(url, ex, input))
    ensures ex.write != UnknownHost && ex.status.None? ==> r == Err(HttpCallException(StatusFailureMessage))
    ensures ex.write != UnknownHost && ex.status.Some? && ex.contentType.None? ==> r == Err(NullPointerException)
    ensures ex.write == Written && ex.status.Some? && ex.contentType.Some? && ex.end == IOFailure ==>
      r == Err(ReadFailure(url))
  {
    match SendRequestBodyOutcome(url, ex, input)
    case Fail(writeError) => Err(writeError)
    case Pass =>
      match GetResponseCode(ex)
      case Err(statusError) => Err(statusError)
      case Ok(status) =>
        match IsOctetStream(ex.contentType)
        case Err(npe) => Err(npe)
        case Ok(octet) =>
          if octet then
            match TryReadBinaryResult(url, ex)
            case Err(readError) => Err(readError)
            case Ok(bytes) => Ok(Response(httpMethod, url, input, status, BinaryBody(bytes)))
          else
            match TryReadResultString(url, ex)
            case Err(readError) => Err(readError)
            case Ok(text) => Ok(Response(httpMethod, url, input, status, TextBody(text)))
  }

  /** The method only labels the response: GET, POST, PUT and DELETE write
      the same body and meet the same outcome. */
  lemma MethodOnlyLabelsResponse(m1: HttpMethod, m2: HttpMethod, url: string, ex: Exchange, input: string)
    ensures TrySendRequest(m1, url, ex, input).Ok? == TrySendRequest(m2, url, ex, input).Ok?
    ensures TrySendRequest(m1, url, ex, input).Err? ==>
      TrySendRequest(m1, url, ex, input).error == TrySendRequest(m2, url, ex, input).error
    ensures TrySendRequest(m1, url, ex, input).Ok? ==>
      TrySendRequest(m1, url, ex, input).value == TrySendRequest(m2, url, ex, input).value.(httpMethod := m1)
  {
  }

  /** `readResultString`: reads lines until `readLine` returns null and
      appends each with `"\n"`; an `IOException` from the stream escapes. */
  method ReadResultString(conn: Connection) returns (r: Result<string>)
    ensures r == if conn.exchange.end == EndOfStream then Ok(Normalized(conn.exchange.decoded)) else Err(IOException)
  {
    ghost var whole := AppendEach(Lines(conn.exchange.decoded));
    var unread := conn.exchange.decoded;
    var result := "";
    while true
      invariant result + AppendEach(Lines(unread)) == whole
      decreases |unread|
    {
      var line := ReadLine(unread);
      if line.None? {
        if conn.exchange.end == IOFailure {
          return Err(IOException);
        }
        assert Lines(unread) == [];
        assert result + "" == result;
        break;
      }
      ghost var rest := AppendEach(Lines(line.value.rest));
      assert Lines(unread) == [line.value.line] + Lines(line.value.rest);
      assert AppendEach(Lines(unread)) == line.value.line + "\n" + rest;
      assert result + (line.value.line + "\n" + rest) == (result + line.value.line + "\n") + rest;
      result := result + line.value.line + "\n";
      unread := line.value.rest;
    }
    AppendEachLinesIsNormalized(conn.exchange.decoded);
    r := Ok(result);
  }

  /** The private `sendRequest(connection, input)`: writes the request body
      whatever the method, and on failure raises the connect error (unknown
      host) or the enriched error. */
  method SendRequestBody(conn: Connection, input: string) returns (o: Outcome)
    modifies conn
    ensures o == SendRequestBodyOutcome(conn.url, conn.exchange, input)
    ensures conn.sent == old(conn.sent) + (if conn.exchange.write == Written then [input] else [])
    ensures conn.disconnected == old(conn.disconnected)
  {
    var written := conn.WriteBody(input);
    match written
    case Written => o := Pass;
    case UnknownHost => o := Fail(ConnectFailure(conn.url));
    case WriteIOFailure => o := Fail(LogSendRequestIOException(conn.url, conn.exchange, input));
  }

  /** `trySendRequest` on a connection: write, status, classification, read. */
  method TrySendRequestOn(httpMethod: HttpMethod, conn: Connection, input: string) returns (r: Result<Response>)
    modifies conn
    ensures r == TrySendRequest(httpMethod, conn.url, conn.exchange, input)
    ensures conn.sent == old(conn.sent) + (if conn.exchange.write == Written then [input] else [])
    ensures conn.disconnected == old(conn.disconnected)
  {
    var written := SendRequestBody(conn, input);
    if written.Fail? {
      return Err(written.error);
    }
    var status := GetResponseCode(conn.exchange);
    if status.Err? {
      return Err(status.error);
    }
    var octet := IsOctetStream(conn.exchange.contentType);
    if octet.Err? {
      return Err(octet.error);
    }
    if octet.value {
      var stream := conn.GetInputStream();
      var bytes := ToByteArray(stream);
      if bytes.Err? {
        return Err(ReadFailure(conn.url));
      }
      r := Ok(Response(httpMethod, conn.url, input, status.value, BinaryBody(bytes.value)));
    } else {
      var text := ReadResultString(conn);
      if text.Err? {
        return Err(ReadFailure(conn.url));
      }
      r := Ok(Response(httpMethod, conn.url, input, status.value, TextBody(text.value)));
    }
  }

  /** `sendRequest(method, url, input, contentType, headers)` once the
      connection is open: the outcome of `trySendRequest`, after which the
      connection is disconnected on every path. */
  method SendRequest(httpMethod: HttpMethod, conn: Connection, input: string) returns (r: Result<Response>)
    modifies conn
    ensures r == TrySendRequest(httpMethod, conn.url, conn.exchange, input)
    ensures conn.sent == old(conn.sent) + (if conn.exchange.write == Written then [input] else [])
    ensures conn.disconnected
  {
    r := TrySendRequestOn(httpMethod, conn, input);
    conn.Disconnect();
  }
}
