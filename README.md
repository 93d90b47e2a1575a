# 3scale porta client: response handling, errors, credentials and base URLs

A Dafny model of the shared helpers of the Go client for the 3scale Account
Management API (`client/client.go`). Every resource method of the client
formats a path, builds one request with the helpers below, sends it, and
hands the response to one of the response handlers. The model covers those
helpers:

- **Response outcome mapping** (`handleXMLResp`, `handleJsonResp`,
  `handleXMLErrResp`, `handleJsonErrResp`, `createApiErr`,
  `createDecodingErrorMessage`), module `Responses`. The XML and JSON
  decoders are abstract. What a decoder makes of the body is an input
  (`Decoded(value)` or `DecodeFailed(failure text)`). A nil XML destination
  is `None` in place of a decoder verdict, so "nothing is decoded" holds by
  construction. `handleJsonErrResp` loops over a Go map, so it is a method
  with a loop. It exposes, as a ghost result, the key order its loop used.
  The specification functions `JsonErrResp` and `JsonResp` take that order
  as a parameter.
- **Error values** (`ApiErr`, `Error`, `Code`), module `ApiErrors`. The
  decimal rendering of `%d` is in module `Decimal`. `ParseErrorText` reads an
  `Error()` text back, and the round trip shows that the text determines the
  code and the reason.
- **Credentials** (`basicAuth` and the `Authorization` header), modules
  `Base64` (section 4 of RFC 4648) and `BasicAuth` (section 2 of RFC 7617).
  Both come with decoders and round-trip lemmas. The credential is held as
  the bytes of the Go string, which is what `[]byte(auth)` encodes.
- **Base URLs, parameters and the client** (`verifyUrl`, `NewAdminPortal`,
  `NewParams`/`AddParam`, `NewThreeScale`, `SetCredentials`, the five request
  builders), module `Client`. `url.ParseRequestURI` and
  `URL.ResolveReference` are function parameters. `Params` and
  `ThreeScaleClient` are classes, because the source updates them in place.

Where the repository's tests disagree with `client.go`, the
model follows `client.go`:

- `handleJsonResp` has no nil-destination shortcut. With a nil destination,
  `encoding/json` reports a failure, and the handler turns it into a decoding
  error. The test at `client/client_test.go:65-75` expects no error.
  `JsonHasNoNilShortcut` states the difference.
- `handleJsonErrResp` builds the reason `"error"` followed by
  `" - " + v + " "` for each value of the decoded map. The test at
  `client/client_test.go:58` expects the raw body as the reason. For the body
  `{"error": "invalid environment"}`, `JsonErrSingleEntry` gives
  `"error - invalid environment "`.
- `NewAdminPortal` formats `scheme://host:port` with `%d` and always writes
  the port. The tests' `NewAdminPortalFromStr` and the trailing-slash
  handling they check are not in this `client.go`.

## Model

| member | source | states |
|---|---|---|
| Decimal.NatDigits | client/client.go:51 | the `%d` digits of a natural number are all decimal digits, at least one, with no leading zero |
| Decimal.FormatInt | client/client.go:51 | the `%d` rendering of any integer, negative ones included, is non-empty, ends in a digit, contains no blank, has no leading zero (only 0 itself is written `0`) and a '-' exactly for negatives, and reads back as the integer |
| ApiErrors.DecodingErrorMessage | client/client.go:198-200 | the decoding-error reason is `"decoding error - "` followed by the failure text, and the failure text can be read back from it |
| ApiErrors.ErrorTextParses | client/client.go:50-52 | `"error calling 3scale system - reason: "` + reason + `" - code: "` + decimal code reads back as the same code and reason, for any reason text |
| ApiErrors.ApiErr.Error | client/client.go:50-52 | the message starts with `"error calling 3scale system - reason: "`, is longer than that prefix plus the reason, and reads back as exactly this error's code and reason |
| ApiErrors.ApiErr.Code | client/client.go:54-56 | the code read back from the `Error()` message is `Code()` |
| ApiErrors.ErrorTextInjective | client/client.go:50-52 | two errors with the same `Error()` text have the same code and reason |
| Responses.DecodingErr | client/client.go:191-200 | `createApiErr(status, createDecodingErrorMessage(err))` carries the status and a reason from which the decoder's failure text can be read back |
| Responses.HandleXmlErrResp | client/client.go:164-172 | the XML error always carries the actual status |
| Responses.XmlErrReason | client/client.go:164-172 | the XML error's reason is the decoded text node; when the error body does not decode, it is `"decoding error - "` + failure |
| Responses.HandleXmlResp | client/client.go:131-145 | no error exactly when the status is the expected one and either no destination was given or the body decoded; every error carries the actual status |
| Responses.XmlStatusMismatch | client/client.go:131-134 | on an unexpected status the result is exactly `handleXMLErrResp`'s error, whose code is never the expected code |
| Responses.XmlNilDestination | client/client.go:136-138 | expected status and nil destination: no error and nothing decoded, whatever the body |
| Responses.XmlExpectedStatus | client/client.go:140-144 | expected status with a destination: the decoded value, or the decoding error carrying that status |
| Responses.ErrorMapMessage | client/client.go:183-186 | the JSON error reason starts with `"error"` and has at least four more characters per map entry |
| Responses.FlattenErrorMap | client/client.go:183-186 | the loop visits every key of the map exactly once, in some order, and builds `"error"` followed by `" - " + v + " "` for each value in that order, so the message starts with `"error"` and has at least four more characters per entry |
| Responses.HandleJsonErrResp | client/client.go:176-189 | the error carries the actual status; an undecodable body gives the decoding error; a decoded map gives a reason that starts with `"error"`; the result equals `JsonErrResp` for the key order its loop used |
| Responses.JsonErrResp | client/client.go:176-189 | the JSON error always carries the actual status |
| Responses.JsonErrUndecodable | client/client.go:179-181 | an error body that does not decode as a map gives `"decoding error - "` + failure with the status |
| Responses.JsonErrEmptyMap | client/client.go:183-188 | an empty error map gives exactly the reason `"error"` |
| Responses.JsonErrSingleEntry | client/client.go:183-188 | a one-entry error map gives exactly `"error - " + v + " "` |
| Responses.JsonErrReasonHasEveryValue | client/client.go:183-188 | for every key order, the reason contains `" - " + v + " "` for every value `v` of the map |
| Responses.JsonResp | client/client.go:150-160 | no error exactly when the status is the expected one and the body decoded; every error carries the actual status; there is no destination input |
| Responses.HandleJsonResp | client/client.go:150-160 | no error exactly when the status is the expected one and the body decoded, and then the destination holds the decoded value; every error carries the actual status; the result equals `JsonResp` for the key order `handleJsonErrResp`'s loop used |
| Responses.JsonStatusMismatch | client/client.go:151-153 | on an unexpected status the result is exactly `handleJsonErrResp`'s error, whose code is never the expected code |
| Responses.JsonDecodeFailure | client/client.go:155-157 | expected status with an undecodable body gives `"decoding error - "` + failure with that status |
| Responses.JsonHasNoNilShortcut | client/client.go:131-160 | `handleXMLResp` with a nil destination and the expected status reports success with nothing decoded; `handleJsonResp`, for every input, never reports success without the decoded value |
| Base64.Encode | client/client.go:204 | the standard base64 text of n bytes has 4 * ceil(n / 3) characters |
| Base64.EncodeAlphabet | client/client.go:204 | every character of the encoding is from the RFC 4648 alphabet or is `=` padding |
| Base64.DecodeEncode | client/client.go:204 | decoding the encoding gives back the encoded bytes |
| BasicAuth.Encoded | client/client.go:202-205 | `basicAuth(u, p)` decodes as base64 to exactly the bytes of `u`, a colon, and `p`, and has length 4 * ceil((len(u) + len(p) + 1) / 3) |
| BasicAuth.AuthorizationRoundTrip | client/client.go:202-205 | for a user-id without a colon, `"Basic " + basicAuth(u, p)` decodes back to exactly `(u, p)` |
| BasicAuth.AuthorizationValue | client/client.go:72 | the header value every builder sets decodes to an empty user-id and the client's credential |
| Client.UnsupportedSchemeMessage | client/client.go:121 | the message is `"unsupported schema "` + the scheme + `" passed to adminPortal"`, so the rejected scheme can be read out of it |
| Client.VerifyUrl | client/client.go:117-126 | no error exactly when parsing succeeds and the scheme is `http` or `https`; a parse error is passed on with no URL; an unsupported scheme gives an error together with the parsed URL |
| Client.PortalUrl | client/client.go:29 | the base URL is the scheme, `://`, the host, `:`, and the port in decimal, which reads back as the port |
| Client.NewAdminPortal | client/client.go:28-34 | a portal exactly when `verifyUrl` reports no error, built from the arguments and the parsed URL, whose scheme is `http` or `https`; otherwise `verifyUrl`'s error and no portal |
| Client.NewAdminPortalScheme | client/client.go:28-34 | when the parser returns exactly the scheme it was given, a portal is created exactly for `http` and `https`; any other scheme gives the unsupported-scheme error |
| Client.NewAdminPortalParseError | client/client.go:29-32 | a parse error is returned unchanged instead of a portal |
| Client.Params.constructor | client/client.go:45-48 | `NewParams` gives an empty parameter bag |
| Client.Params.AddParam | client/client.go:58-60 | the key is set to the value; every other key keeps its presence and value |
| Client.ThreeScaleClient.constructor | client/client.go:38-43 | the client holds the portal and the credential; a nil http client becomes the default one |
| Client.ThreeScaleClient.SetCredentials | client/client.go:63-65 | only the credential changes |
| Client.ThreeScaleClient.BuildGetReq | client/client.go:68-74 | GET to the resolved endpoint with no body; headers exactly `Accept: application/xml` and `Authorization: Basic base64(":" + credential)`, which decodes back to the credential |
| Client.ThreeScaleClient.BuildPostReq | client/client.go:77-84 | POST with the given body; `Accept`, `Content-Type: application/x-www-form-urlencoded` and the Basic `Authorization` header, which decodes back to the credential |
| Client.ThreeScaleClient.BuildUpdateReq | client/client.go:87-94 | PUT with the given body and the same three headers as POST |
| Client.ThreeScaleClient.BuildDeleteReq | client/client.go:97-104 | DELETE with the given body, nil included, and the same three headers as POST |
| Client.ThreeScaleClient.BuildPutReq | client/client.go:107-114 | the same request as `buildUpdateReq` |

## Left out

- The XML and JSON decoders, `url.ParseRequestURI`, `URL.ResolveReference` and `http.NewRequest` are library code. Decoder verdicts are inputs. The URL functions are function parameters. Of a parsed URL, only its scheme is inspected; `rest` stands for every other part of the URL.
- NewAdminPortalScheme: assumes the parser hands back the scheme exactly as given. Go's `url.ParseRequestURI` lowercases the scheme, so `"HTTPS"` or `"Http"` is accepted as `https` or `http`; that case is covered by `NewAdminPortal` and `VerifyUrl` for any parser, but not by this lemma.
- The builders model only the case where `http.NewRequest` succeeds. When it fails, the source calls `req.Header.Set` on a nil request before returning the error, which panics in Go; the model has no counterpart for that path.
- Sending the request (`httpClient.Do`), closing response bodies, and the transport are I/O. The http client is an opaque value.
- Go's header map canonicalises keys and can hold several values per key. The builders set one value per key with names already in canonical form, so headers are a map from name to one value.
- The iteration order of a Go map is unspecified. The model does not fix it: it is a ghost result of the loop and a parameter of `JsonErrResp`. The properties proved hold for every order.
- Integers are unbounded. Status codes and ports are far from Go's 64-bit `int` limits, and no wrap-around is modelled.
- The type declarations of `ApiErr`, `ErrorResp`, `AdminPortal`, `ThreeScaleClient` and `Params` are not part of this model. Their fields are taken from how `client.go` uses them.
- `NewAdminPortalFromStr` and `buildGetJSONReq` are called by tests and resource files, but they are not part of this model.
- The per-resource operations (accounts, products, backends, limits, proxies, tenants, active docs, applications, users), pagination, and the fakes under `fake/` are left out. Each resource operation only formats a path and calls the helpers above.
