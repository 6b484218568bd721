/** transport/http/client.go: a thin HTTP client whose every failure ends
    the process through `log.Fatal`. The network round trip, body reading
    and JSON decoding are oracles passed in. */
module Http {
  import opened Common

  /** `bytes.ErrTooLarge`. */
  const ErrTooLarge: Error := Error("bytes.Buffer: too large")

  /** `*HttpConfig` (durations in nanoseconds). */
  datatype HttpConfig = HttpConfig(
    maxIdleConns: int, maxIdleConnsPerHost: int, dial: int, timeout: int, keepAlive: int, idleConnTimeout: int)

  /** The `*http.Transport` `New` builds. */
  datatype Transport = Transport(
    dialTimeout: int, dialKeepAlive: int, insecureSkipVerify: bool,
    maxIdleConns: int, maxIdleConnsPerHost: int, idleConnTimeout: int)

  /** An `*http.Client` over a transport. */
  datatype StdClient = StdClient(transport: Transport)

  /** How a call ends: it returns, `log.Fatal` prints a message and exits
      the process, or it panics. */
  datatype Ending<+T> = Returns(value: T) | Exits(message: string) | Panics(reason: string)

  /** The `*http.Request` `newRequest` builds. */
  datatype Request = Request(verb: string, url: string, body: Option<string>, header: map<string, string>)

  /** The header entries `newRequest` sets: those whose key and value are
      both non-empty. */
  function NonEmptyEntries(header: map<string, string>): (h: map<string, string>)
    ensures forall k :: k in h <==> k in header && k != "" && header[k] != ""
    ensures forall k :: k in h ==> h[k] == header[k]
  {
    map k | k in header && k != "" && header[k] != "" :: header[k]
  }

  /** `newRequest`, given the error `http.NewRequest` reports: a GET stays a
      GET with no body, any other method becomes a POST whose body is the
      URL itself; then every entry with a non-empty key and value is set. */
  method NewRequest(verb: string, url: string, header: map<string, string>, newRequestErr: Option<Error>)
    returns (r: Ending<Request>)
    ensures newRequestErr.Some? ==> r == Exits(newRequestErr.value.msg)
    ensures newRequestErr.None? ==> r.Returns?
    ensures r.Returns? && verb == "GET" ==> r.value.verb == "GET" && r.value.body.None?
    ensures r.Returns? && verb != "GET" ==> r.value.verb == "POST" && r.value.body == Some(url)
    ensures r.Returns? ==> r.value.url == url && r.value.header == NonEmptyEntries(header)
  {
    var req: Request;
    if verb == "GET" {
      req := Request("GET", url, None, map[]);
    } else {
      req := Request("POST", url, Some(url), map[]);
    }
    if newRequestErr.Some? {
      return Exits(newRequestErr.value.msg);
    }
    var todo := header.Keys;
    var hdr: map<string, string> := map[];
    while todo != {}
      invariant todo <= header.Keys
      invariant forall k :: k in hdr <==> k in header && k !in todo && k != "" && header[k] != ""
      invariant forall k :: k in hdr ==> hdr[k] == header[k]
      decreases |todo|
    {
      var k :| k in todo;
      if k != "" && header[k] != "" {
        hdr := hdr[k := header[k]];
      }
      todo := todo - {k};
    }
    assert hdr == NonEmptyEntries(header);
    r := Returns(req.(header := hdr));
  }

  /** A value passed to `panic`. */
  datatype PanicValue = ErrorPanic(e: Error) | OtherPanic(text: string)

  function PanicText(v: PanicValue): string
  {
    match v
    case ErrorPanic(e) => e.msg
    case OtherPanic(t) => t
  }

  /** What `buf.ReadFrom(r)` does: finishes with the bytes and an error,
      or panics. */
  datatype ReadOutcome = ReadDone(data: seq<bv8>, err: Option<Error>) | ReadPanic(v: PanicValue)

  /** `readAll`: a `bytes.ErrTooLarge` panic becomes that error with no
      data; any other panic goes on. */
  function ReadAll(ro: ReadOutcome): (r: Ending<(seq<bv8>, Option<Error>)>)
    ensures !r.Exits?
    ensures ro.ReadDone? ==> r == Returns((ro.data, ro.err))
    ensures ro.ReadPanic? && ro.v == ErrorPanic(ErrTooLarge) ==> r == Returns(([], Some(ErrTooLarge)))
    ensures r.Panics? <==> ro.ReadPanic? && ro.v != ErrorPanic(ErrTooLarge)
    ensures r.Panics? ==> r.reason == PanicText(ro.v)
  {
    match ro
    case ReadDone(data, err) => Returns((data, err))
    case ReadPanic(v) =>
      if v == ErrorPanic(ErrTooLarge) then Returns(([], Some(ErrTooLarge)))
      else Panics(PanicText(v))
  }

  /** The response `client.Do(req)` gives: a status and how reading its
      body goes. */
  datatype Response = Response(status: int, body: ReadOutcome)

  class Client {
    const conf: HttpConfig
    var transport: Transport
    var client: Option<StdClient>

    /** `New`: builds the transport from the configuration and never sets
        the `client` field. */
    constructor (c: HttpConfig)
      ensures conf == c && client.None?
      ensures transport == Transport(c.dial, c.keepAlive, true, c.maxIdleConns, c.maxIdleConnsPerHost, c.idleConnTimeout)
    {
      conf := c;
      transport := Transport(c.dial, c.keepAlive, true, c.maxIdleConns, c.maxIdleConnsPerHost, c.idleConnTimeout);
      client := None;
    }

    /** `New` as intended: the same transport, and a client that uses it. */
    constructor WithClient(c: HttpConfig)
      ensures conf == c && client == Some(StdClient(transport))
      ensures transport == Transport(c.dial, c.keepAlive, true, c.maxIdleConns, c.maxIdleConnsPerHost, c.idleConnTimeout)
    {
      conf := c;
      transport := Transport(c.dial, c.keepAlive, true, c.maxIdleConns, c.maxIdleConnsPerHost, c.idleConnTimeout);
      client := Some(StdClient(Transport(c.dial, c.keepAlive, true, c.maxIdleConns, c.maxIdleConnsPerHost, c.idleConnTimeout)));
    }

    /** `Do`, given what the round trip returns, whether `res` is nil and
        what decoding the body into `res` reports. It never returns an
        error: a transport error, a status of 400 or more, a read error or
        a decode error each end the process, and it returns nil only after
        a status below 400, a clean read and, when `res` is not nil, a clean
        decode. */
    function Do(send: Result<Response>, resIsNil: bool, decodeErr: Option<Error>): (r: Ending<Option<Error>>)
      reads this
      ensures r.Returns? ==> r.value.None?
      ensures client.None? ==> r == Panics(NilDereference)
      ensures r.Returns? <==>
        && client.Some? && send.Ok? && send.value.status < 400
        && ReadAll(send.value.body).Returns? && ReadAll(send.value.body).value.1.None?
        && (resIsNil || decodeErr.None?)
      ensures client.Some? && send.Err? ==> r == Exits(send.error.msg)
      ensures client.Some? && send.Ok? && send.value.status >= 400 ==> r == Exits("response status code error (<nil>)")
      ensures client.Some? && send.Ok? && send.value.status < 400 && ReadAll(send.value.body).Panics? ==>
        r == Panics(ReadAll(send.value.body).reason)
    {
      if client.None? then Panics(NilDereference)
      else if send.Err? then Exits(send.error.msg)
      else if send.value.status >= 400 then Exits("response status code error (<nil>)")
      else match ReadAll(send.value.body)
        case Panics(reason) => Panics(reason)
        case Returns((_, err)) =>
          if err.Some? then Exits("readAll error (" + err.value.msg + ")")
          else if !resIsNil && decodeErr.Some? then Exits("json.Unmarshal ")
          else Returns(None)
    }
  }

  /** A client made by `New` panics on its first request, whatever the
      round trip would have answered. */
  method NewClientDoPanics(c: HttpConfig, send: Result<Response>, resIsNil: bool, decodeErr: Option<Error>)
    returns (r: Ending<Option<Error>>)
    ensures r == Panics(NilDereference)
  {
    var client := new Client(c);
    r := client.Do(send, resIsNil, decodeErr);
  }

  /** A client that has its `http.Client` gets through a successful round
      trip: status 200, a clean body and a clean decode return nil. */
  method WithClientDoSucceeds(c: HttpConfig, data: seq<bv8>) returns (r: Ending<Option<Error>>)
    ensures r == Returns(None)
  {
    var client := new Client.WithClient(c);
    r := client.Do(Ok(Response(200, ReadDone(data, None))), false, None);
  }
}
