# go-selenium command dispatch, in Dafny

A model of the command-dispatch and validation layer of `goselenium`, a Go
client for a W3C WebDriver server. It covers:

- driver construction: validating the server URL and the browser name, and
  trimming one trailing slash from the URL;
- the `By` and `Timeout` value factories;
- the two request helpers `stateRequest`/`valueRequest`: one transport call,
  then classification of the failure as a communication or an unmarshalling
  error;
- the six navigation commands from section 9 (Navigation) of W3C WebDriver
  Level 1: `Go`, `CurrentURL`, `Back`, `Forward`, `Refresh` and `Title`.

The HTTP transport (`apiService.performRequest`) and the two JSON decoders are
parameters: an arrow `(url, verb, body) -> Reply` and two partial decoders
`Bytes -> Option<record>`. Every request helper and command returns an
`Outcome`. An `Outcome` holds the Go `(value, error)` pair as a `Result`, plus
the list of transport calls the operation made. "No network call" is therefore
a checkable statement: `calls == []`.

Commands are functions of an immutable `Driver` and return no driver. So no
navigation command can change `seleniumURL` or `sessionID`; the types
guarantee this.

Files:
- `wrappers.dfy`: `Option` and `Result`.
- `errors.dfy`: payload bytes, Go's `string(bytes)` conversion, and the error
  taxonomy. Each error constructor is a variant carrying the fields its call
  sites pass.
- `remote_driver.dfy`: construction, factories and the request helpers
  (`src/remote_driver.go`).
- `navigation.dfy`: the navigation commands (`src/remote_driver_navigation.go`).
  It also has a uniform `Command` view with the template lemma, and a parser
  that reads command URLs back.

Facts about the code that the model keeps:
- Construction failures are plain `errors.New` values, not typed invalid-URL or
  invalid-argument errors. They are modelled as `Error.Invalid(message)` with
  the exact messages. Only the empty-URL message (src/remote_driver.go:14)
  lacks the final period.
- The code trims at most one trailing slash, so `"http://x//"` is stored as
  `"http://x/"` (`OnlyOneSlashTrimmed`), and `"http://"` is stored as
  `"http:/"` (`StoredURLKeepsScheme`).
- The timeout constructors accept any `int`, negative values included.
- The `ByCSSSelector` doc comment promises a `.` prefix. The code stores the
  selector unchanged (`SelectorStoredVerbatim`).

## Model

| member | source | states |
|---|---|---|
| RemoteDriver.NewSeleniumWebDriver | src/remote_driver.go:12-39 | Construction succeeds iff the URL is non-empty, has an `http://` or `https://` prefix, and the browser name is non-empty. Each failure carries its exact message, checked in source order. On success the session is empty, the browser name is kept, and the URL loses exactly one trailing slash if it had one. |
| RemoteDriver.TrailingSlashNormalised | src/remote_driver.go:28-30 | For `u` without a trailing slash, constructing from `u + "/"` and from `u` gives the same driver, unless `u` is one of the bare schemes `"http:/"`/`"https:/"`, which are invalid without the slash. |
| RemoteDriver.DriverURLAfterConstruction | src/remote_driver.go:105-107 | On successful construction `DriverURL` returns the input URL with its trailing slash, if any, trimmed: the input itself, or the input minus its last character when that is `/`. |
| RemoteDriver.OnlyOneSlashTrimmed | src/remote_driver.go:28-33 | For a valid URL `u`, `u + "//"` is accepted and `DriverURL` returns `u + "/"`: only one slash is trimmed. |
| RemoteDriver.StoredURLKeepsScheme | src/remote_driver.go:17-33 | The URL `DriverURL` returns keeps its http/https scheme iff the input was not exactly `"http://"` or `"https://"`. |
| RemoteDriver.SessionScriptTimeout | src/remote_driver.go:43-48 | The script timeout has type `"script"` and keeps its argument unchecked. |
| RemoteDriver.SessionPageLoadTimeout | src/remote_driver.go:52-57 | The page-load timeout has type `"page load"` and keeps its argument unchecked. |
| RemoteDriver.SessionImplicitWaitTimeout | src/remote_driver.go:61-66 | The implicit-wait timeout has type `"implicit"` and keeps its argument unchecked. |
| RemoteDriver.TimeoutsDetermineTheirOrigin | src/remote_driver.go:41-66 | Timeouts from different constructors never coincide. Each constructor is injective, so a timeout determines both its constructor and its argument. |
| RemoteDriver.ByIndex | src/remote_driver.go:71-81 | Fails iff the index exceeds 65535, with an invalid-argument error for parameter `"index"` carrying that index. Otherwise it returns type `"index"` with the index as value. |
| RemoteDriver.ByCSSSelector | src/remote_driver.go:86-96 | Fails iff the selector is empty, with an invalid-argument error for parameter `"selector"`. Otherwise it returns type `"css selector"` with the selector as value. |
| RemoteDriver.SelectorStoredVerbatim | src/remote_driver.go:83-95 | A selector without a leading `.` is accepted and stored without one, despite the doc comment. |
| RemoteDriver.SendRequest | src/remote_driver.go:109-141 | Exactly one transport call, with the request's URL, verb and body. The error is a communication error iff the transport failed; it then carries the calling method, URL and reply bytes. The error is an unmarshalling error iff the transport succeeded but decoding failed; it then carries the calling method and the reply text. Success iff both steps succeeded, with the decoded record. |
| RemoteDriver.TransportFailureSkipsDecoding | src/remote_driver.go:113-116 | After a transport failure the outcome does not depend on the decoder, so decoding is never attempted. |
| RemoteDriver.UnmarshallingKeepsPayload | src/remote_driver.go:118-121 | The text in an unmarshalling error decodes back to exactly the bytes the transport returned. |
| Errors.RawTextVerbatim | src/remote_driver.go:137 | Go's `string(resp)` conversion is lossless: reading the text back gives the original bytes. |
| Navigation.Go | src/remote_driver_navigation.go:48-83 | With no session: a missing-session error for `"Go()"` and no call, even when the target is also invalid. With a session and a target without an http/https scheme (including the empty string): an invalid-URL error carrying the target, and no call. Otherwise: one POST to `<server>/session/<id>/url` with body `{"url": target}` and calling method `"Go"`. The decoded state becomes the response, and a helper error passes through unchanged. |
| Navigation.CurrentURL | src/remote_driver_navigation.go:85-110 | With no session: a missing-session error for `"CurrentURL()"` and no call. Otherwise: one GET to `/url` through the value decoder. The response's state and URL are the decoded state and value, and a helper error passes through unchanged. |
| Navigation.Back | src/remote_driver_navigation.go:112-132 | With no session: a missing-session error for `"Back()"` and no call. Otherwise: one body-less POST to `/back` through the state decoder. The decoded state is copied into the response, and a helper error passes through unchanged. |
| Navigation.Forward | src/remote_driver_navigation.go:134-154 | With no session: a missing-session error for `"Forward()"` and no call. Otherwise: one body-less POST to `/forward` through the state decoder. The decoded state is copied, and a helper error passes through unchanged. |
| Navigation.Refresh | src/remote_driver_navigation.go:156-176 | With no session: a missing-session error for `"Refresh()"` and no call. Otherwise: one body-less POST to `/refresh` through the state decoder. The decoded state is copied, and a helper error passes through unchanged. |
| Navigation.Title | src/remote_driver_navigation.go:178-203 | With no session: a missing-session error for `"Title()"` and no call. Otherwise: one GET to `/title` through the value decoder. The response's state and title are the decoded state and value, and a helper error passes through unchanged. |
| Navigation.CommandTemplate | src/remote_driver_navigation.go:48-203 | Every command follows the same steps in order. Without a session it fails with the command's missing-session error. With an invalid argument it fails with an invalid-URL error. Otherwise it makes exactly one call to its endpoint with its verb and body, and the reply becomes a communication error, an unmarshalling error or the decoded response. Errors carry the command name, the URL and the payload. |
| Navigation.NoCallOnLocalFailure | src/remote_driver_navigation.go:53-61 | A command makes at most one transport call. It makes none iff it failed with a locally raised error. |
| Navigation.FreshDriverRefusesCommands | src/remote_driver.go:32-36 | A newly constructed driver has no session, so every navigation command returns its missing-session error without a transport call. |
| Navigation.RouteRoundTrip | src/remote_driver_navigation.go:51 | Parsing a command URL recovers the session identifier and endpoint that built it, for any session identifier. |
| Navigation.RequestsIdentifyCommand | src/remote_driver_navigation.go:72-77 | On one driver, two commands send the same URL, verb and body only if they are the same command; `Go`'s body identifies its target. |
| Navigation.SessionsHaveDistinctURLs | src/remote_driver_navigation.go:89 | The same command sent by drivers with different sessions on one server goes to different URLs. |

## Left out

- The HTTP transport (`apiService.performRequest`) is a parameter, not modelled. The driver's `apiService` field is therefore not part of `Driver`.
- JSON encoding and decoding are abstract. A body is the parameter map `{"url": target}` rather than its encoded bytes, and decoding is a partial function. The decoder's own error value is not carried in the unmarshalling error, because only the calling method and raw text are observable in the model.
- The marshalling-error branch of `Go` (src/remote_driver_navigation.go:66-69) is omitted. Encoding a string-to-string map cannot fail, so the branch is unreachable.
- Capabilities are represented only by the browser name; the rest of the capabilities type is not part of this model.
- RemoteDriver.ByIndex: the error carries the offending index as a number rather than Go's `string(index)` rune rendering. Go's `uint` is modelled as `nat`, which has no 64-bit ceiling; the 65535 check comes first, so the ceiling does not matter.
- `CreateSession`, `DeleteSession`, `SessionStatus`, `SetSessionTimeout`, and the window and frame commands are declared in `src/web_driver.go` but implemented in files that are not part of this model. The session lifecycle is therefore only modelled through the empty-session state of a new driver.
- The `Type()`/`Timeout()`/`Value()` getters are the datatypes' fields, `timeoutType`, `timeout`, `t` and `value`.
- Concurrency around `sessionID` is not modelled: the code has no locking, retries or timeouts.
