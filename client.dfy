/**
  A model of the client of the `dify` Go package (client.go): building a client
  from its configuration, sending a JSON request and normalising the response
  into an error value, and the small accessors on a client.

  The network, the JSON library and `http.StatusText` are not modelled: the
  result of sending a request is an input value (`SendResult`), and parsing an
  error body, decoding a success body and looking up a reason phrase are
  function parameters (`parse`, `decode`, `statusText`).
 */
module Dify {

  datatype Option<+T> = None | Some(value: T)

  newtype byte = x: int | 0 <= x < 256

  type Bytes = seq<byte>

  /** Go's `time.Duration`: a signed 64-bit count of nanoseconds. */
  newtype Duration = x: int | -0x8000_0000_0000_0000 <= x < 0x8000_0000_0000_0000

  /** The zero `Duration`, which `http.Client` reads as "no timeout". */
  const NoTimeout: Duration := 0

  /** An opaque `http.RoundTripper` supplied by the caller. */
  datatype RoundTripper = RoundTripper(id: nat)

  /** The fields of `ClientConfig` that client.go reads. */
  datatype ClientConfig = ClientConfig(
    Host: string,
    DefaultAPISecret: string,
    ApiSecretKey: string,      // deprecated spelling of the same credential
    Timeout: Duration,
    Transport: Option<RoundTripper>)  // None is a nil transport

  /** The `error` values that reach the caller of `sendJSONRequest`. */
  datatype Error =
    | Opaque(id: nat)                            // made outside client.go: by the transport or the decoder
    | StatusError(status: int, reason: string)   // a failed status whose body did not parse: the number and its reason phrase
    | ApiError(code: string, message: string)    // a failed status whose body parsed: the body's code and message

  /** The errors the transport and the decoder report: never one of the two shapes client.go builds. */
  type ForeignError = e: Error | e.Opaque? witness Opaque(0)

  /** The error body a failed response may carry. */
  datatype ErrorBody = ErrorBody(code: string, message: string, status: int)

  /** What the JSON decoder leaves in the destination, and the error it reports. */
  datatype Decoding<V> = Decoding(value: V, err: Option<ForeignError>)

  /** Go's `strings.HasSuffix`. */
  predicate HasSuffix(s: string, suffix: string) {
    |s| >= |suffix| && s[|s| - |suffix|..] == suffix
  }

  /** Go's `strings.TrimSuffix`: removes one occurrence of `suffix` at the end, if there is one. */
  function TrimSuffix(s: string, suffix: string): (r: string)
    ensures HasSuffix(s, suffix) ==> r + suffix == s
    ensures !HasSuffix(s, suffix) ==> r == s
  {
    if HasSuffix(s, suffix) then s[..|s| - |suffix|] else s
  }

  /** The credential a configuration resolves to: the primary field, or else the deprecated one. */
  function ResolveSecret(c: ClientConfig): (secret: string)
    ensures c.DefaultAPISecret != "" ==> secret == c.DefaultAPISecret
    ensures c.DefaultAPISecret == "" ==> secret == c.ApiSecretKey
    // the two fields are never combined
    ensures secret == c.DefaultAPISecret || secret == c.ApiSecretKey
    ensures secret == "" <==> c.DefaultAPISecret == "" && c.ApiSecretKey == ""
  {
    if c.DefaultAPISecret != "" then c.DefaultAPISecret else c.ApiSecretKey
  }

  /** The configuration `NewClient` passes on: every other field keeps its zero value. */
  function HostAndSecretConfig(host: string, secret: string): (c: ClientConfig)
    ensures c.Host == host && ResolveSecret(c) == secret
    ensures c.Timeout == NoTimeout && c.Transport == None
  {
    ClientConfig(host, secret, "", NoTimeout, None)
  }

  /** The subset of `http.Client` that client.go sets. */
  class HttpClient {
    var timeout: Duration
    var transport: Option<RoundTripper>  // None: `http.DefaultTransport` is used

    /** `&http.Client{}`: every field has its zero value. */
    constructor ()
      ensures timeout == NoTimeout && transport == None
    {
      timeout := NoTimeout;
      transport := None;
    }
  }

  /**
    A response body: `data` is what the server sent, `unread` what a reader has
    not yet consumed; `closes` counts the calls to `Close`.
   */
  class Body {
    const data: Bytes
    var unread: Bytes
    var closed: bool
    ghost var closes: nat

    constructor (data: Bytes)
      ensures this.data == data && unread == data && !closed && closes == 0
    {
      this.data := data;
      unread := data;
      closed := false;
      closes := 0;
    }

    /**
      `io.ReadAll(body)`: the rest of the stream while the body is open, and
      nothing once it is closed; afterwards nothing is left to read.
     */
    method ReadAll() returns (b: Bytes)
      modifies this
      ensures b == if old(closed) then [] else old(unread)
      ensures unread == [] && closed == old(closed) && closes == old(closes)
    {
      b := if closed then [] else unread;
      unread := [];
    }

    method Close()
      modifies this
      ensures closed && closes == old(closes) + 1
      ensures unread == old(unread)
    {
      closed := true;
      closes := closes + 1;
    }
  }

  class Response {
    const statusCode: int
    const body: Body

    constructor (statusCode: int, body: Body)
      ensures this.statusCode == statusCode && this.body == body
    {
      this.statusCode := statusCode;
      this.body := body;
    }
  }

  /** The result of `sendRequest`: an error, or a response. */
  datatype SendResult = SendFailed(err: ForeignError) | Received(resp: Response)

  /** The objects `sendJSONRequest` may change besides the destination. */
  function BodyOf(sent: SendResult): (s: set<object>) {
    if sent.Received? then {sent.resp.body} else {}
  }

  /** A caller-owned value that a successful response is decoded into. */
  class Destination<V> {
    var value: V

    constructor (value: V)
      ensures this.value == value
    {
      this.value := value;
    }
  }

  const StatusNoContent := 204

  /** The statuses `sendJSONRequest` treats as success: 200 through 299. */
  predicate IsSuccessStatus(status: int) {
    200 <= status < 300
  }

  /** The error a response with a non-success status turns into. */
  function ResponseError(status: int, body: Bytes, parse: Bytes -> Option<ErrorBody>,
                         statusText: int -> string): (e: Error)
    // never the transport's or the decoder's kind of error
    ensures !e.Opaque?
    // a parseable body gives its code and message; the status it carries is not used
    ensures e.ApiError? <==> parse(body).Some?
    ensures parse(body).Some? ==> e.code == parse(body).value.code && e.message == parse(body).value.message
    // an unparseable body gives the response's own status and its reason phrase
    ensures parse(body).None? ==> e.status == status && e.reason == statusText(status)
  {
    match parse(body)
    case None => StatusError(status, statusText(status))
    case Some(b) => ApiError(b.code, b.message)
  }

  /** The error returned by `sendJSONRequest` and the destination's value afterwards. */
  datatype Outcome<V> = Outcome(err: Option<Error>, dest: Option<V>)

  /**
    What `sendJSONRequest` does, given the result of sending the request and the
    destination's value before the call (None: a nil destination).
   */
  function JSONRequestOutcome<V>(sent: SendResult, dest: Option<V>, parse: Bytes -> Option<ErrorBody>,
                                 decode: (Bytes, V) -> Decoding<V>, statusText: int -> string): (o: Outcome<V>)
    // a nil destination stays nil
    ensures dest.None? ==> o.dest.None?
    // a failed send returns that very error and touches nothing
    ensures sent.SendFailed? ==> o == Outcome(Some(sent.err), dest)
    // a non-success status always gives a normalised error and leaves the destination as it was
    ensures sent.Received? && !IsSuccessStatus(sent.resp.statusCode) ==>
              && o.dest == dest
              && o.err == Some(ResponseError(sent.resp.statusCode, sent.resp.body.data, parse, statusText))
    // 204 succeeds without decoding, even into a destination
    ensures sent.Received? && sent.resp.statusCode == StatusNoContent ==> o == Outcome(None, dest)
    // otherwise the result is exactly the decoder's
    ensures sent.Received? && IsSuccessStatus(sent.resp.statusCode) && sent.resp.statusCode != StatusNoContent
            && dest.Some? ==>
              var d := decode(sent.resp.body.data, dest.value);
              o == Outcome(d.err, Some(d.value))
    // the destination is written only by a decode
    ensures o.dest != dest ==>
              sent.Received? && IsSuccessStatus(sent.resp.statusCode) && sent.resp.statusCode != StatusNoContent
              && dest.Some?
    // the error is one client.go builds exactly when the status is not a success
    ensures (o.err.Some? && !o.err.value.Opaque?) <==> sent.Received? && !IsSuccessStatus(sent.resp.statusCode)
    // nil error exactly when a success status is not followed by a failed decode
    ensures o.err.None? <==>
              && sent.Received?
              && IsSuccessStatus(sent.resp.statusCode)
              && (sent.resp.statusCode == StatusNoContent || dest.None?
                  || decode(sent.resp.body.data, dest.value).err.None?)
  {
    match sent
    case SendFailed(e) => Outcome(Some(e), dest)
    case Received(resp) =>
      if !IsSuccessStatus(resp.statusCode) then
        Outcome(Some(ResponseError(resp.statusCode, resp.body.data, parse, statusText)), dest)
      else if resp.statusCode == StatusNoContent || dest.None? then
        Outcome(None, dest)
      else
        var d := decode(resp.body.data, dest.value);
        Outcome(d.err, Some(d.value))
  }

  /** `dify.Client`: built once, never changed afterwards; `config` is the configuration it was built from. */
  class Client {
    const host: string
    const defaultAPISecret: string
    const httpClient: HttpClient
    ghost const config: ClientConfig

    /** The client keeps its configuration's host and resolved secret. */
    ghost predicate Valid() {
      host == config.Host && defaultAPISecret == ResolveSecret(config)
    }

    constructor (host: string, defaultAPISecret: string, httpClient: HttpClient, ghost config: ClientConfig)
      requires host == config.Host && defaultAPISecret == ResolveSecret(config)
      ensures Valid() && this.config == config
      ensures this.host == host && this.defaultAPISecret == defaultAPISecret && this.httpClient == httpClient
    {
      this.host := host;
      this.defaultAPISecret := defaultAPISecret;
      this.httpClient := httpClient;
      this.config := config;
    }

    /**
      `sendJSONRequest`: `sent` is what `sendRequest` returned for the request,
      `res` the destination (null for nil). The deferred `Body.Close()` runs
      once, after the last read of the body, on every path that has a response.
     */
    method SendJSONRequest<V>(sent: SendResult, res: Destination?<V>, parse: Bytes -> Option<ErrorBody>,
                              decode: (Bytes, V) -> Decoding<V>, statusText: int -> string)
      returns (err: Option<Error>)
      requires sent.Received? ==> sent.resp.body.unread == sent.resp.body.data
      requires sent.Received? ==> !sent.resp.body.closed && sent.resp.body.closes == 0
      modifies BodyOf(sent), res
      ensures var o := JSONRequestOutcome(sent, if res == null then None else Some(old(res.value)),
                                          parse, decode, statusText);
              err == o.err && (res != null ==> o.dest == Some(res.value))
      ensures sent.Received? ==> sent.resp.body.closed && sent.resp.body.closes == 1
    {
      if sent.SendFailed? {
        return Some(sent.err);
      }
      var resp := sent.resp;
      if resp.statusCode < 200 || resp.statusCode >= 300 {
        var bodyBytes := resp.body.ReadAll();
        var errBody := parse(bodyBytes);
        if errBody.None? {
          err := Some(StatusError(resp.statusCode, statusText(resp.statusCode)));
        } else {
          err := Some(ApiError(errBody.value.code, errBody.value.message));
        }
      } else if resp.statusCode == StatusNoContent {
        err := None;
      } else if res == null {
        err := None;
      } else {
        var bodyBytes := resp.body.ReadAll();
        var d := decode(bodyBytes, res.value);
        res.value := d.value;
        err := d.err;
      }
      resp.body.Close();
    }

    /** `getHost`: the stored host without one trailing slash. */
    function GetHost(): (h: string)
      ensures HasSuffix(host, "/") ==> h + "/" == host
      ensures !HasSuffix(host, "/") ==> h == host
    {
      TrimSuffix(host, "/")
    }

    /** `getAPISecret`: the secret the client's configuration resolves to. */
    function GetAPISecret(): (secret: string)
      requires Valid()
      ensures secret == ResolveSecret(config)
      ensures secret == config.DefaultAPISecret || secret == config.ApiSecretKey
    {
      defaultAPISecret
    }

    function API(): (a: Accessor)
      ensures a.c == this
    {
      Accessor(this)
    }

    /** The deprecated spelling of `API`. */
    function Api(): (a: Accessor)
      ensures a == API() && a.c == this
    {
      API()
    }
  }

  /** The `API` accessor: a back-reference to the client it was made from. */
  datatype Accessor = Accessor(c: Client)

  /** `NewClientWithConfig`. */
  method NewClientWithConfig(c: ClientConfig) returns (client: Client)
    ensures fresh(client) && fresh(client.httpClient)
    ensures client.Valid() && client.config == c
    // the host is stored as given
    ensures client.host == c.Host
    ensures client.GetAPISecret() == ResolveSecret(c)
    // timeout and transport are overridden only when given, and keep the zero defaults otherwise
    ensures c.Timeout != NoTimeout ==> client.httpClient.timeout == c.Timeout
    ensures c.Timeout == NoTimeout ==> client.httpClient.timeout == NoTimeout
    ensures c.Transport.Some? ==> client.httpClient.transport == c.Transport
    ensures c.Transport.None? ==> client.httpClient.transport == None
  {
    var httpClient := new HttpClient();
    if c.Timeout != NoTimeout {
      httpClient.timeout := c.Timeout;
    }
    if c.Transport.Some? {
      httpClient.transport := c.Transport;
    }
    var secret := c.DefaultAPISecret;
    if secret == "" {
      secret := c.ApiSecretKey;
    }
    client := new Client(c.Host, secret, httpClient, c);
  }

  /** `NewClient`: `NewClientWithConfig` with only the host and the primary secret set. */
  method NewClient(host: string, defaultAPISecret: string) returns (client: Client)
    ensures fresh(client) && fresh(client.httpClient)
    ensures client.Valid() && client.config == HostAndSecretConfig(host, defaultAPISecret)
    ensures client.host == host && client.GetAPISecret() == defaultAPISecret
    ensures client.httpClient.timeout == NoTimeout && client.httpClient.transport == None
  {
    client := NewClientWithConfig(HostAndSecretConfig(host, defaultAPISecret));
  }

  /** A run of `n` slashes. */
  function Slashes(n: nat): (s: string) {
    if n == 0 then "" else "/" + Slashes(n - 1)
  }

  lemma {:induction false} SlashesAppend(n: nat)
    ensures Slashes(n + 1) == Slashes(n) + "/"
  {
    if n > 0 {
      SlashesAppend(n - 1);
    }
  }

  /** Trimming the host removes exactly one of its trailing slashes: runs of slashes are not collapsed. */
  lemma {:induction false} TrimKeepsOtherSlashes(prefix: string, n: nat)
    requires n > 0
    ensures TrimSuffix(prefix + Slashes(n), "/") == prefix + Slashes(n - 1)
  {
    SlashesAppend(n - 1);
    assert prefix + Slashes(n) == (prefix + Slashes(n - 1)) + "/";
  }

  /** A host is trimmed to itself exactly when it does not end in a slash. */
  lemma TrimIsIdentityIff(host: string)
    ensures TrimSuffix(host, "/") == host <==> !HasSuffix(host, "/")
  {
  }
}
