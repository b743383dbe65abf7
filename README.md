# dify client: configuration, dispatch and error normalisation

A Dafny model of `client.go` in the Go package `dify`, a thin HTTP/JSON client.
Everything is in `client.dfy`, in the module `Dify`. It covers three things:

- **Client construction.** `NewClientWithConfig` builds an `http.Client` by
  assigning its fields step by step. The primary secret `DefaultAPISecret`
  takes precedence over the deprecated `ApiSecretKey`. `NewClient` delegates
  to `NewClientWithConfig`.
- **`sendJSONRequest`.** This is a chain of early returns. It looks at the
  transport result, then the status code (the 2xx range, with 204 No Content
  handled apart, as in sections 15.3 and 15.3.5 of RFC 9110), then whether the
  error body parses, then whether there is a destination, then the decoder's
  result. A deferred `Body.Close()` runs on every path once a response exists.
- **Accessors.** These are `getHost`, which trims one trailing `/`,
  `getAPISecret`, `API`, and its deprecated alias `Api`.

The objects that Go changes in place are classes:

- `HttpClient`, whose `timeout` and `transport` are assigned during construction.
- `Body`, a stream: `unread` is what is left to read, `closed` says whether it
  was closed, and a ghost counter `closes` counts the `Close` calls.
- `Destination`, the caller's value that a success body is decoded into.

`Client` is a class with `const` fields, because the Go code never changes a
client after building it. A ghost `config` records the configuration the client
was built from, and `Client.Valid()` ties the stored host and secret to it.
`SendJSONRequest` is proved against the pure function `JSONRequestOutcome`, and
the outcome function's contract states each branch.
`Body.ReadAll` returns nothing once the body is closed. So the proof also checks
that the deferred close runs after the last read.

The model treats these as inputs:

- the transport result is a `SendResult` value;
- parsing an error body is a parameter `parse: Bytes -> Option<ErrorBody>`;
- decoding a success body is a parameter `decode: (Bytes, V) -> Decoding<V>`;
- `http.StatusText` is a parameter `statusText: int -> string`.

The two `fmt.Errorf` shapes are the `Error` constructors `StatusError` and
`ApiError`. Errors made by the transport or the decoder have the subset type
`ForeignError`, which admits only `Opaque` values, and the model returns them
unchanged. The model thus records where an error was built. In Go the two
normalised shapes share a type with `io.EOF`, which the decoder returns on an
empty body, so Go callers can tell them apart only by the error's text or value.

In Go, `Timeout` and `Transport` are assigned only when they are non-zero or
non-nil. The zero values are also the defaults of `http.Client`, so the client
always ends up with the configuration's own values. `NewClientWithConfig` states
both cases.

## Model

| member | source | states |
|---|---|---|
| `Dify.TrimSuffix` | client.go:86 | the result with the suffix appended is the input when the input ends in the suffix; otherwise the input is returned unchanged |
| `Dify.TrimKeepsOtherSlashes` | client.go:86 | a host ending in a run of n slashes is trimmed to the same prefix with n-1 slashes, so repeated slashes are not collapsed |
| `Dify.TrimIsIdentityIff` | client.go:86 | trimming leaves a host unchanged exactly when it does not end in `/` |
| `Dify.ResolveSecret` | client.go:27-30 | the secret is `DefaultAPISecret` when that is non-empty, otherwise `ApiSecretKey`; it is always one of the two, never a combination; it is empty only when both are |
| `Dify.HostAndSecretConfig` | client.go:39-42 | the configuration `NewClient` builds has the given host, resolves to the given secret, and has no timeout and no transport |
| `Dify.HttpClient.constructor` | client.go:18 | a new `http.Client` has no timeout and no custom transport |
| `Dify.NewClientWithConfig` | client.go:17-36 | the client records `c` as its configuration; the host is stored verbatim; the secret is the resolved one; timeout and transport are overridden only when given and keep the zero defaults otherwise |
| `Dify.NewClient` | client.go:38-43 | the client has the given host and secret, and no timeout or transport override |
| `Dify.Client.constructor` | client.go:31-35 | the client holds exactly the host, secret and HTTP client it is given, which are its configuration's host and resolved secret |
| `Dify.Body.ReadAll` | client.go:63 | reading an open body yields what was left unread and consumes it, so a second read yields nothing; reading a closed body yields nothing |
| `Dify.Body.Close` | client.go:54 | closing marks the body closed and adds one to its close count |
| `Dify.ResponseError` | client.go:56-67 | a non-2xx response always gives an error built in client.go. A parseable body gives the body's code and message, and the body's status is not used. An unparseable body gives the response status and its reason phrase |
| `Dify.JSONRequestOutcome` | client.go:49-83 | a failed send returns that exact error and changes nothing. A non-2xx status returns the normalised error and leaves the destination alone. 204 returns nil without decoding. Otherwise the result is exactly the decoder's. Only a decode writes the destination. The error is one client.go builds exactly when the status is not 2xx. The error is nil exactly when the status is 2xx and no decode failed |
| `Dify.Client.SendJSONRequest` | client.go:49-83 | the returned error and the destination's new value are those of `JSONRequestOutcome`. A failed send changes nothing. Otherwise the body is closed exactly once, after it was read |
| `Dify.Client.GetHost` | client.go:85-88 | the stored host less one trailing `/`: appending `/` gives back the host when it ends in `/`; otherwise the host is returned unchanged |
| `Dify.Client.GetAPISecret` | client.go:90-92 | returns the secret the client's configuration resolves to, which is always its primary or its deprecated secret |
| `Dify.Client.API` | client.go:99-103 | the accessor refers back to this client |
| `Dify.Client.Api` | client.go:94-97 | the deprecated alias returns the same accessor as `API`, so both refer to the same client |

## Left out

- `http.Client.Do` (client.go:46) and all network I/O. The transport result is an input value. A response body given to `SendJSONRequest` must be open, unread and never closed, which is what a fresh response from the transport is.
- JSON: `json.Unmarshal` and `json.Decoder.Decode` are function parameters, and Go's decoding rules are not modelled. One example: a typed nil pointer inside a non-nil `interface{}` makes `Decode` fail. The model leaves that to the `decode` parameter.
- The error returned by `io.ReadAll` is ignored at client.go:63. The bytes read simply go to `parse`.
- `http.StatusText` is the parameter `statusText`. The exact `fmt.Errorf` text is replaced by the `StatusError` and `ApiError` constructors.
- The request value and `sendRequest` itself are not modelled, because they only pass the request to the transport.
- `time.Duration` is modelled only as a signed 64-bit integer, and only its zero test matters. The transport is an opaque handle.
- `ClientConfig` and the `API` type are declared outside client.go, so only the fields client.go reads are modelled. `Dify.Client.API`: Go allocates a new `API` struct on each call, while the model's accessor is a value. Two accessors therefore compare equal, whereas Go's pointers differ; both refer to the same client.
- `Dify.NewClient` is a method and not a function, because the construction it delegates to allocates objects.
- Go's `defer` has no Dafny counterpart. `SendJSONRequest` computes its result on each branch and closes the body once at the end of the method.
- Nil pointers: `NewClientWithConfig(nil)` panics when it reads `c.Timeout` (client.go:20), and calling `sendRequest` or `getHost` on a nil `*Client` panics (client.go:46, 86). The model passes the configuration by value and its `Client` references are non-null, so these panics are not modelled.
- Concurrent use of one client and its shared transport is not modelled.
