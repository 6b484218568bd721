/** transport/httpclient/context_client.go: an HTTP client whose `Do`
    retries a request with a `Retriable`'s intervals. The network is an
    oracle: the `i`-th attempt of `Do` (from 0) produces `attempts(i)`. */
module HttpClient {
  import opened Common
  import Backoff
  import Retry

  /** `Config`; durations in nanoseconds. The unexported `retryCount` is
      never read by the client. */
  datatype Config = Config(
    dial: int, timeout: int, keepAlive: int, maxConns: int, maxIdle: int,
    backoffInterval: int, retryCount: int)

  const DefaultRetryCount: int := 0

  const MIMEJSON: string := "application/json"
  const MIMEPOSTForm: string := "application/x-www-form-urlencoded"

  /** Why the per-attempt context ended. */
  datatype ContextError = Canceled | DeadlineExceeded

  function ContextErr(e: ContextError): Error
  {
    match e
    case Canceled => Error("context canceled")
    case DeadlineExceeded => Error("context deadline exceeded")
  }

  /** What one exchange with the server produced: either `http.Client.Do`
      failed (and the per-attempt context then ended with `ctxErr`), or a
      response came back, its body read with `readErr` and, if that
      succeeded, decoded with `decodeErr`. */
  datatype Attempt =
    | TransportFailed(ctxErr: ContextError)
    | Responded(status: int, readErr: Option<Error>, decodeErr: Option<Error>)

  /** What `request` returns, and whether it got as far as decoding the body. */
  datatype RequestResult = RequestResult(err: Option<Error>, decoded: bool)

  /** `request`: one attempt under its own timeout. A transport error is
      replaced by the context's error; a status of 500 or more returns
      `errors.Wrap(nil, "")`, which is nil, without reading the body;
      otherwise the read error or else the decoding error is returned. */
  function Request(a: Attempt): (r: RequestResult)
    ensures a.TransportFailed? ==> r == RequestResult(Some(ContextErr(a.ctxErr)), false)
    ensures a.Responded? && a.status >= 500 ==> r == RequestResult(None, false)
    ensures r.decoded <==> a.Responded? && a.status < 500 && a.readErr == None
    ensures r.err == None <==>
      a.Responded? && (a.status >= 500 || (a.readErr == None && a.decodeErr == None))
  {
    match a
    case TransportFailed(e) => RequestResult(Some(ContextErr(e)), false)
    case Responded(status, readErr, decodeErr) =>
      if status >= 500 then RequestResult(None, false)
      else if readErr.Some? then RequestResult(readErr, false)
      else RequestResult(decodeErr, true)
  }

  /** The outcome of every attempt, as `Do`'s loop sees it. */
  function Outcomes(attempts: nat -> Attempt): Retry.Work
  {
    (i: nat) => Request(attempts(i)).err
  }

  /** The value passed as `param` to `reqBody`: Go strings are told apart
      from every other dynamic type. */
  datatype Param = StringParam(s: string) | OtherParam

  /** `reqBody`: a form body is the string parameter itself, a JSON body is
      the encoder's output (`encoded`, `None` when encoding failed), and
      every other case has no body. */
  function ReqBody(contentType: string, param: Param, encoded: Option<string>): (body: Option<string>)
    ensures contentType == MIMEPOSTForm && param.StringParam? ==> body == Some(param.s)
    ensures contentType == MIMEJSON ==> body == encoded
    ensures body.Some? ==> (contentType == MIMEPOSTForm && param.StringParam?) ||
                           (contentType == MIMEJSON && encoded.Some?)
  {
    if contentType == MIMEPOSTForm then
      (if param.StringParam? then Some(param.s) else None)
    else if contentType == MIMEJSON then encoded
    else None
  }

  type Header = map<string, seq<string>>

  datatype Verb = GET | POST | PUT | PATCH | DELETE

  function VerbName(v: Verb): string
  {
    match v
    case GET => "GET"
    case POST => "POST"
    case PUT => "PUT"
    case PATCH => "PATCH"
    case DELETE => "DELETE"
  }

  /** A request as `http.NewRequest` and the header assignment leave it. */
  datatype HttpRequest = HttpRequest(verb: Verb, url: string, body: Option<string>, header: Option<Header>)

  /** The request each of `Get`, `Post`, `Put`, `Patch` and `Delete` hands
      to `Do`. `newRequestErr` is what `http.NewRequest` reports for this
      method and URL. `Get` keeps the caller's headers, nil included; the
      others make a header map when given nil and set its `Content-Type`
      to `contentType`; only `Post`, `Put` and `Patch` have a body. */
  function BuildRequest(verb: Verb, url: string, contentType: string, headers: Option<Header>,
                        param: Param, encoded: Option<string>, newRequestErr: Option<Error>)
    : (r: Result<HttpRequest>)
    ensures newRequestErr.Some? ==>
      r == Err(Wrap(newRequestErr.value, VerbName(verb) + " - request creation failed"))
    ensures r.Ok? ==> r.value.verb == verb && r.value.url == url
    ensures r.Ok? && verb == GET ==> r.value.header == headers && r.value.body == None
    ensures r.Ok? && verb != GET ==>
      && r.value.header.Some?
      && "Content-Type" in r.value.header.value
      && r.value.header.value["Content-Type"] == [contentType]
      && (forall k :: k in r.value.header.value && k != "Content-Type" ==>
            headers.Some? && k in headers.value && r.value.header.value[k] == headers.value[k])
      && (forall k :: headers.Some? && k in headers.value && k != "Content-Type" ==>
            k in r.value.header.value)
    ensures r.Ok? && verb == DELETE ==> r.value.body == None
    ensures r.Ok? && (verb == POST || verb == PUT || verb == PATCH) ==>
      r.value.body == ReqBody(contentType, param, encoded)
  {
    if newRequestErr.Some? then
      Err(Wrap(newRequestErr.value, VerbName(verb) + " - request creation failed"))
    else if verb == GET then Ok(HttpRequest(GET, url, None, headers))
    else
      var h := if headers.Some? then headers.value else map[];
      var body := if verb == DELETE then None else ReqBody(contentType, param, encoded);
      Ok(HttpRequest(verb, url, body, Some(h["Content-Type" := [contentType]])))
  }

  /** `HttpClient`: the configuration it was made from, the number of
      retries and the retry policy, the latter two settable after
      construction. */
  class HttpClient {
    const conf: Config
    var retryCount: int
    var retrier: Retry.Retriable

    /** `NewHTTPClient`: the retry count starts at `defaultRetryCount`
        (0), whatever the configuration's own `retryCount` says, and the
        retrier is a `retrier` over a constant backoff on the configured
        interval. */
    constructor (c: Config)
      ensures conf == c
      ensures retryCount == DefaultRetryCount
      ensures retrier == Retry.Retrier(Backoff.Constant(c.backoffInterval))
    {
      conf := c;
      retryCount := DefaultRetryCount;
      retrier := Retry.Retrier(Backoff.NewConstantBackoff(c.backoffInterval));
    }

    /** `SetRetryCount`: overwrites the retry count and nothing else. */
    method SetRetryCount(count: int)
      modifies this`retryCount
      ensures retryCount == count
    {
      retryCount := count;
    }

    /** `SetRetrier`: overwrites the retry policy and nothing else. */
    method SetRetrier(r: Retry.Retriable)
      modifies this`retrier
      ensures retrier == r
    {
      retrier := r;
    }

    /** `Do`: up to `retryCount + 1` attempts, stopping at the first one
        that `request` reports as nil; after every failed attempt, the last
        one included, it sleeps `retrier.NextInterval(i)`. Unlike
        `retrier.Do` it returns the last attempt's error. */
    method Do(attempts: nat -> Attempt) returns (err: Option<Error>, calls: nat, sleeps: seq<int>)
      ensures Retry.Stopped(Outcomes(attempts), retryCount, calls)
      ensures err == (if calls == 0 then None else Request(attempts(calls - 1)).err)
      ensures |sleeps| == Retry.Failures(Outcomes(attempts), calls)
      ensures forall j :: 0 <= j < |sleeps| ==> sleeps[j] == Retry.NextInterval(retrier, j)
    {
      err, calls, sleeps := Retry.RetryLoop(retrier, Outcomes(attempts), retryCount);
    }
  }

  /** A client fresh from `NewHTTPClient` makes exactly one attempt: its
      error is returned, and a failure is followed by one sleep of 0. */
  method FreshClientDo(c: Config, attempts: nat -> Attempt)
    returns (err: Option<Error>, calls: nat, sleeps: seq<int>)
    ensures calls == 1
    ensures err == Request(attempts(0)).err
    ensures sleeps == (if err.Some? then [0] else [])
  {
    var client := new HttpClient(c);
    err, calls, sleeps := client.Do(attempts);
  }
}
