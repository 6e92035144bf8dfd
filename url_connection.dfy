/** The part of `java.net.HttpURLConnection` the client observes, taken as
    given: opening the connection, DNS, sockets and timeouts are not
    modelled. An `Exchange` scripts how the server and the platform behave
    for one request; a `Connection` records what the client does to it. */
module UrlConnection {
  import opened Base
  import opened StreamUtil

  /** How writing the request body ends. */
  datatype WriteOutcome =
    | Written          // the body was written, flushed and closed
    | UnknownHost      // `getOutputStream` failed to resolve the host
    | WriteIOFailure   // any other `IOException` while writing

  /** The server's side of one request, as the connection reports it. */
  datatype Exchange = Exchange(
    write: WriteOutcome,
    /** `getResponseCode()`: the status, or `None` when it throws. */
    status: Option<int>,
    /** `getHeaderField("Content-Type")`: `None` when the header is absent. */
    contentType: Option<string>,
    /** `getHeaderFields()`. */
    headers: map<string, seq<string>>,
    /** The chunks `getInputStream()` delivers and how that stream ends. */
    chunks: seq<seq<byte>>,
    end: StreamEnd,
    /** The characters a platform-charset reader decodes from those bytes;
        reading them fails exactly when the byte stream does. */
    decoded: string)

  /** One `HttpURLConnection` to `url`. */
  class Connection {
    const url: string
    const exchange: Exchange
    /** The request bodies written to the connection's output stream. */
    var sent: seq<string>
    var disconnected: bool

    constructor (url: string, exchange: Exchange)
      ensures this.url == url && this.exchange == exchange
      ensures sent == [] && !disconnected
    {
      this.url := url;
      this.exchange := exchange;
      sent := [];
      disconnected := false;
    }

    /** `getOutputStream()` and writing `body` to it. */
    method WriteBody(body: string) returns (outcome: WriteOutcome)
      modifies this
      ensures outcome == exchange.write
      ensures sent == old(sent) + (if outcome == Written then [body] else [])
      ensures disconnected == old(disconnected)
    {
      outcome := exchange.write;
      if outcome == Written {
        sent := sent + [body];
      }
    }

    /** `getInputStream()`: a fresh stream over the response body. */
    method GetInputStream() returns (s: InputStream)
      ensures fresh(s) && s.pending == exchange.chunks && s.end == exchange.end
    {
      s := new InputStream(exchange.chunks, exchange.end);
    }

    method Disconnect()
      modifies this
      ensures disconnected && sent == old(sent)
    {
      disconnected := true;
    }
  }
}
