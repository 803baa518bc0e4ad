# gomts in Dafny

A model of the request and response layer of gomts, a Go client for the
MyTimeStation HTTP API, with proofs of what that layer promises. The model covers:

- **Config resolution.** `Config`'s getters resolve each setting from its field, else from
  the environment or a built-in default, and derive the base URL
  `<protocol>://<host>/<version>`.
- **The authenticating transport.** `mtsTransport.RoundTrip` performs these steps in order:
  - It refuses to send without an auth token.
  - It appends the `User-Agent` and `Accept` headers.
  - It optionally logs a debug dump.
  - It sets Basic auth, with the token as the username and an empty password.
  - It forwards the request to the wrapped transport.
  - It classifies the status: 2xx passes, and anything else becomes a service error.
- **The error mapper.** A zero code falls back to the HTTP status. Empty text falls back to
  the status text. A body that does not parse counts as an empty envelope.
- **The service error.** `*Error` renders as `[code] text`.
- **The request builder and dispatcher.** `newHTTPRequest` chooses the body encoding and
  `Content-Type` from the kind of body. `httpDo` and its four verb wrappers build the request,
  send it through the client, and decode the body. The response body is closed whatever the
  decode outcome.
- **The resource clients.** The employee and department clients form a routing table of
  verb, path and body kind. They unwrap the response envelope or pass the error on unchanged.
  The model also covers which fields the employee create form and the update JSON carry.
- **The two sweepers.** `internal/sweeper`'s `Sweeper` and the test file's `testSweeper`
  each collect IDs by name prefix and delete them. The test file's `errorList` renders their
  failures.

The model splits into imperative and pure parts:

- **Imperative Dafny** is used where the Go code changes state:
  - `Request` headers, which `RoundTrip` changes step by step.
  - Response bodies, which are closed.
  - The log handler's records.
  - The `newClient` wiring.
  - The sweepers' ID lists.
  - The loops that build error lists and strings.
- **Pure functions and lemmas** are used for the getters, the routing, the field-inclusion
  rules and the rendering.

Each method is specified by a function of its inputs and its old state: `Trip`, `Dispatched`,
`Matching`, `Failures` and `SweepError`. The properties are proved about those functions.

The outside world enters as parameters:

- The network is a `World` object. It holds the environment variables, a `respond` oracle
  that answers the n-th request sent, and a source of correlation IDs. It records every
  request sent and every response body handed out.
- Library code enters as a `Library` value:
  - `http.StatusText`
  - the JSON decoder
  - the form and JSON encoders
  - `http.NewRequest`'s URL check
- Typed response decoding is a `decode` function passed to each call.

Modules, in dependency order:

- `Options`: the option type.
- `Codec`: JSON values, form fields, and a key lookup (last occurrence wins) for reading back the bodies the library writes.
- `Errors`:
  - the error envelope, decoded by merging members as encoding/json does, and its rendering
  - the error values the library returns
  - `Result`
- `Wire`: the net/http boundary.
- `Logging`: the slog boundary.
- `Configs`: `Config` and its getters.
- `Transport`: `RoundTrip` and `mapResponseToError`.
- `Clients`: `newClient`, `http.Client.Do`, and the department client wrapper.
- `Dispatch`:
  - `newHTTPRequest`
  - `httpDo` and the verb wrappers
  - `mapResponseBody`
- `Employees` and `Departments`: the resource clients.
- `Sweeper`: `internal/sweeper`.
- `ClientTest`: the test sweeper and `errorList`.

Some behaviour of the code is easy to miss, and in one place the code departs from its own
doc comment. In each of the points below the model follows the code; the one deliberate
departure, the correlation tag on the debug dumps, is under "## Findings":

- The debug dump of the outgoing request is taken before `SetBasicAuth`. The dump therefore
  never holds the token's credentials; it holds only whatever `Authorization` values the
  caller had already set (`Transport.DumpPrecedesAuth`).
- A request without a body still gets a `Content-Type` header, with the empty string as its
  value (`Dispatch.NoBodyHasEmptyContentType`).
- Contrary to its doc comment (client.go:75), `GetUserAgent` decides on the `AuthToken` field,
  not the `UserAgent` field. The model keeps this literally:
  - With no explicit token, the default user agent is used even when one is configured.
  - With a token, the configured user agent is used even when it is empty.

## Model

| member | source | states |
|---|---|---|
| `Errors.EnvelopeRoundTrip` | error.go:6-14 | reading back the JSON envelope `{"error": {"error_code", "error_text"}}` of a service error gives that error, for every code a Go `int` can hold |
| `Errors.ReadEnvelope` | http.go:86-89 | decoding into a zero `ErrorResponse`: the members are applied in order, each `error` object merged into the fields decoded so far; a null, a mismatched type or a code outside the Go `int` range leaves a field as it was; a body that is not an object leaves the zero value |
| `Errors.MergeEnvelopeConcat` | http.go:89 | decoding two runs of members one after the other is decoding their concatenation |
| `Errors.MergeKeepsUnnamedFields` | http.go:89 | an `error` object that does not name `error_code` (or `error_text`) leaves that field as it was |
| `Errors.RepeatedErrorObjectsMerge` | http.go:89 | two `error` members, one with the code and one with the text, decode into one error holding both |
| `Errors.NullErrorKeepsFields` | http.go:89 | a trailing `"error": null` leaves the decoded error unchanged |
| `Errors.OutOfRangeCodeIgnored` | http.go:89 | an `error_code` outside the Go `int` range is skipped, leaving the code at zero, while the text is still read |
| `Errors.UnparsableIsEmptyEnvelope` | http.go:86-89 | a body the decoder rejects leaves the envelope at its zero value |
| `Errors.Render` | error.go:17-19 | `[code] text` starts with `[` and ends with the error text |
| `Errors.RenderZero` | error.go:17-19 | the zero error renders as `[0] ` |
| `Errors.DecimalRoundTrip` | error.go:18 | the `%d` rendering of a code reads back as that code, negative codes included |
| `Errors.RenderInjective` | error.go:17-19 | two service errors with the same rendering are the same error |
| `Errors.EmptyListMessage` | client_test.go:71-80 | an empty error list renders as exactly `errors:` |
| `Errors.Items` | client_test.go:75-77 | one ` <message>;` per error, in list order |
| `Errors.Message` | http.go:18-195 | what `err.Error()` returns for each error the library produces: the `ErrMissingToken` text (http.go:18); `<context>: <cause>` for the `%w` wraps `request failed` (:68), `could not marshal url-form-encoded`/`could not marshal json` (:178, :186) and `could not build request` (:195); `[code] text` for a `*Error` (error.go:17-19); `<Op> "<url>": <cause>` for a `*url.Error`; `errors:` then ` <message>;` per error for an error list (client_test.go:71-80) |
| `Errors.ListMessageContainsEach` | client_test.go:71-80 | every listed error's ` <message>;` occurs in the list's rendering |
| `Errors.MapKeepsError` | employee.go:174-181 | unwrapping an envelope keeps the error unchanged and applies the field access only to a success |
| `Wire.AddValue` | http.go:52-55 | `Header.Add` appends one value to its key and leaves every other key as it was |
| `Wire.SetValue` | http.go:63 | `Header.Set` replaces the key's values with exactly one and leaves every other key as it was |
| `Wire.Request.constructor` | http.go:193 | a new request carries the verb, URL and payload given and no header |
| `Wire.Request.AddHeader` | http.go:52-55 | the request's header becomes `AddValue` of the old header |
| `Wire.Request.SetBasicAuth` | http.go:63 | the header's `Authorization` is replaced by the credentials and nothing else changes |
| `Wire.Body.Close` | http.go:88 | the body is closed |
| `Wire.World.NewUuid` | http.go:49 | each correlation ID is drawn once, in order, without sending anything |
| `Wire.World.Transmit` | http.go:66-69 | the request is sent once to the named transport; an answer gives a fresh open body with that status and content, and a failing transport gives its error unchanged, opening no body |
| `Logging.Log` | http.go:113 | one record is appended to the logger's handler, carrying the logger's groups and attributes |
| `Configs.Config.constructor` | client.go:34-63 | `new(Config)`: every field at its zero value |
| `Configs.Config.GetAuthToken` | client.go:67-73 | the explicit token, else `$MTS_AUTH_TOKEN`; empty exactly when both are |
| `Configs.Config.GetUserAgent` | client.go:76-82 | the default user agent when `AuthToken` is empty, else the `UserAgent` field as it is |
| `Configs.Config.GetProtocol` | client.go:85-91 | the field when set, else `https`; never empty |
| `Configs.Config.GetAPIVersion` | client.go:94-101 | the field when set, else `v1.2`; never empty |
| `Configs.Config.GetHost` | client.go:104-110 | the field when set, else `api.mytimestation.com`; never empty |
| `Configs.Config.GetBaseURL` | client.go:116-121 | begins with the protocol and `://`, ends with the API version, and is exactly as long as protocol, host and version plus four separators |
| `Configs.Config.BaseURLHoldsHost` | client.go:116-121 | after the protocol and `://` the base URL holds the host, followed by one `/` |
| `Configs.Config.GetLogger` | client.go:127-143 | a logger over the configured handler, else over the default stderr handler, with no group or attribute |
| `Configs.ZeroConfigBaseURL` | client.go:10-17 | a Config with no protocol, host or version yields `https://api.mytimestation.com/v1.2` |
| `Transport.Prepared` | http.go:51-55 | `User-Agent` and `Accept: application/json` are appended to whatever values were there; no other key changes |
| `Transport.Authorized` | http.go:62-63 | `Authorization` becomes Basic credentials of the token with an empty password; no other key changes |
| `Transport.DumpPrecedesAuth` | http.go:51-63 | the dumped request carries the caller's `Authorization` values, the sent one carries only the token's, and the two agree on every other header, the URL, the verb and the body |
| `Transport.MappedError` | http.go:91-101 | a zero code becomes the HTTP status; an empty text becomes the status text of the final code; otherwise the decoded field is kept |
| `Transport.MappedKeepsServiceError` | http.go:91-101 | a decoded error with a non-zero code and non-empty text is returned as is |
| `Transport.MappedMalformed` | http.go:86-99 | an unparsable body yields the HTTP status and its status text |
| `Transport.MappedTextFollowsFinalCode` | http.go:93-99 | empty text is filled with the status text of the decoded code, not of the HTTP status |
| `Transport.MappedNeverBlank` | http.go:93-99 | for a non-zero status the mapped code is never zero, and empty text is only the status text of that code |
| `Transport.MapResponseToError` | http.go:85-102 | closes the body and returns the mapped error of the decoded envelope |
| `Transport.Verdict` | http.go:66-81 | a wrapped-transport failure is wrapped as `request failed`; a 2xx answer passes unchanged; any other answer fails with the mapped service error of its body |
| `Transport.VerdictPassesExactly2xx` | http.go:76-81 | the response passes exactly when the server answered with 200..299, and then unchanged |
| `Transport.UnreachableIsWrapped` | http.go:66-69 | a wrapped-transport error `f` comes back as `request failed: <f>`, wrapped with `%w`: `errors.As` finds a `*Error` inside it and `errors.Is` finds `ErrMissingToken` exactly when they would in `f` itself |
| `Transport.RejectedIsServiceError` | http.go:76-79 | a non-2xx answer is the mapped service error, found by `errors.As` |
| `Transport.DumpsUntaggedAsWritten` | http.go:104-126 | as written, the debug dumps do not depend on the correlation ID and do not carry it |
| `Transport.DumpsShareCorrelationId` | http.go:104-126 | as intended, the request and response dumps of one call both carry its correlation ID |
| `Transport.Trip` | http.go:44-82 | no token: `ErrMissingToken`; else the verdict on the wrapped transport's answer to the prepared, authorized request |
| `Transport.MissingTokenSendsNothing` | http.go:44-47 | without a token the trip fails with `ErrMissingToken`, sends nothing and logs nothing |
| `Transport.TokenSendsOneAuthorizedRequest` | http.go:49-69 | with a token exactly one request goes to the wrapped transport, with Basic auth and the appended `User-Agent` and `Accept`, and every other header as the caller set it |
| `Transport.MtsTransport.constructor` | client.go:147-152 | `GetTransport`: the transport holds the very Config it came from and the default logger |
| `Transport.MtsTransport.GetWrappedTransport` | http.go:35-41 | the configured transport when set, else the default one |
| `Transport.MtsTransport.LogRequest` | http.go:104-114 | as corrected (see Findings): appends one debug record of the request dump, tagged with the correlation ID |
| `Transport.MtsTransport.LogResponse` | http.go:116-126 | as corrected (see Findings): appends one debug record of the response dump, tagged with the correlation ID |
| `Transport.MtsTransport.RoundTrip` | http.go:44-82 | the outcome, the requests sent, the IDs drawn, the final request headers, the records logged and the bodies handed out are those of `Trip` for the resolved token, user agent, wrapped transport and debug flag; a passed response has a fresh open body and a failed one leaves no body open |
| `Transport.MtsTransport.Forward` | http.go:65-81 | the request goes to the wrapped transport once, the response is dumped when debugging, and the outcome is the status verdict of the answer |
| `Clients.UrlErrorKeepsCause` | http.go:156-158 | the `*url.Error` from `http.Client.Do` reads `<Op> "<url>": <cause>` and still reveals the missing token or service error inside |
| `Clients.HttpClient.Do` | http.go:156-158 | one trip through the transport, its failure relabelled as a `*url.Error` for the verb and URL |
| `Clients.Client.constructor` | client.go:164-182 | the client, its transport and both sub-clients share the caller's Config; the transport logs to the `transport` group of the client's `gomts` logger |
| `Clients.Client.Employees` | client.go:185-187 | the employee client is the client itself |
| `Clients.Client.Departments` | client.go:189-191 | the department client wraps this very client |
| `Clients.SubClientsShareConfig` | client.go:164-191 | both sub-clients and the transport read the one Config, so later changes to it reach every request |
| `Dispatch.BuiltRequestShape` | http.go:164-201 | a built request has the verb and URL given, one `Content-Type` for its body kind and no other header, and a payload exactly when there is a body, holding the encoder's output |
| `Dispatch.Built` | http.go:164-201 | an encoding failure gives an error naming form or JSON; a request the library refuses gives `could not build request`; else the request with the verb, URL, encoded payload and a single `Content-Type` |
| `Dispatch.NoBodyHasEmptyContentType` | http.go:170-198 | a request without a body has no payload and a `Content-Type` added with the empty string |
| `Dispatch.EncodeFailureBuildsNothing` | http.go:176-187 | an encoding failure returns an error that names form or JSON, and no request |
| `Dispatch.NewHTTPRequest` | http.go:164-201 | returns a fresh request whose wire form is `Built`, or `Built`'s error |
| `Dispatch.Dispatched` | http.go:148-162 | a build error as it is; else the trip's failure relabelled as a `*url.Error`; else the decoded body of the 2xx answer |
| `Dispatch.MapResponseBody` | http.go:204-215 | closes the body on every outcome and returns the decoder's value or error |
| `Dispatch.HttpDo` | http.go:148-162 | the result is `Dispatched` for `GetBaseURL() + path`: a build error, else the client's error, else the decoded body; every body opened is closed again |
| `Dispatch.Exchange` | http.go:156-161 | the client's error is returned as is; a passed response is decoded and its body closed |
| `Dispatch.HttpGet` | http.go:129-131 | `httpDo` with GET and no body |
| `Dispatch.HttpPut` | http.go:134-136 | `httpDo` with PUT and the caller's body |
| `Dispatch.HttpPost` | http.go:139-141 | `httpDo` with POST and the caller's body |
| `Dispatch.HttpDelete` | http.go:144-146 | `httpDo` with DELETE and no body |
| `Dispatch.MissingTokenReachesCaller` | http.go:148-162 | without a token the caller gets `ErrMissingToken` inside a `*url.Error`, and nothing is sent |
| `Dispatch.ServiceErrorReachesCaller` | http.go:148-162 | a non-2xx answer reaches the caller as the mapped service error |
| `Dispatch.SuccessDecodesBody` | http.go:148-162 | a 2xx answer reaches the caller as the decoder's reading of its body |
| `Dispatch.BuildErrorReachesCaller` | http.go:151-154 | a build error reaches the caller unchanged and nothing is sent |
| `Employees.CreateFormLookup` | employee.go:99-129 | each form key holds the request's field exactly when the field is non-empty, and `name` always |
| `Employees.CreateForm` | employee.go:99-131 | the form of a create request: `name`, then each other field only when non-empty, `custom_fields` only when the map is non-empty |
| `Employees.CreateFormFields` | employee.go:99-131 | `name` is always sent, each other field only when non-empty, and reading the form back gives the request |
| `Employees.UpdateJsonLookup` | employee.go:135-169 | each JSON key holds the request's field exactly when it is set, and `name` always (null when unset) |
| `Employees.UpdateJson` | employee.go:135-169 | the JSON of an update request: `name` always (null when unset), each other field only when set |
| `Employees.UpdateJsonFields` | employee.go:135-169 | `name` is always present, every other field only when set, and reading the JSON back gives the request |
| `Employees.Route` | employee.go:174-217 | the verb and path of each employee operation, `/employees` or `/employees/<id>` |
| `Employees.RouteDeterminesOperation` | employee.go:174-217 | no two employee operations share verb and path |
| `Employees.CreateEmployee` | employee.go:174-181 | POST `/employees` with the form body; the employee in the envelope, or the error unchanged |
| `Employees.GetEmployee` | employee.go:183-190 | GET `/employees/<id>`; the employee in the envelope, or the error unchanged |
| `Employees.UpdateEmployee` | employee.go:192-199 | PUT `/employees/<id>` with the JSON body; the employee in the envelope, or the error unchanged |
| `Employees.DeleteEmployee` | employee.go:201-208 | DELETE `/employees/<id>`; the employee in the envelope, or the error unchanged |
| `Employees.ListEmployees` | employee.go:210-217 | GET `/employees`; the `employees` list of the envelope, or the error unchanged |
| `Departments.CreateFormHoldsName` | department.go:27-34 | the create form holds `name` and nothing else |
| `Departments.Route` | department.go:54-79 | the verb and path of each department operation, `/departments` or `/departments/<id>` |
| `Departments.RouteDeterminesOperation` | department.go:54-79 | no two department operations share verb and path |
| `Departments.CreateDepartment` | department.go:54-61 | POST `/departments` with the form body; the department in the envelope, or the error unchanged |
| `Departments.ListDepartments` | department.go:63-70 | GET `/departments`; the `departments` list of the envelope, or the error unchanged |
| `Departments.DeleteDepartment` | department.go:72-79 | DELETE `/departments/<id>`; the department in the envelope, or the error unchanged |
| `Sweeper.Matching` | internal/sweeper/sweeper.go:45-49 | the IDs of the listed items whose name has the prefix, in list order |
| `Sweeper.MatchingExactly` | internal/sweeper/sweeper.go:45-49 | an ID is collected exactly when some listed item whose name has the prefix carries it; never more IDs than items |
| `Sweeper.MatchingAll` | internal/sweeper/sweeper.go:57-61 | when every name has the prefix, every ID is collected in list order |
| `Sweeper.Failures` | internal/sweeper/sweeper.go:75-90 | the errors of the deletes that fail, in the order the IDs are attempted |
| `Sweeper.FailuresEmptyIff` | internal/sweeper/sweeper.go:75-90 | no failure is recorded exactly when every delete succeeds; at most one per ID |
| `Sweeper.FailuresAppend` | internal/sweeper/sweeper.go:74-90 | deleting two lists in turn records the first list's failures, then the second's |
| `Sweeper.SweepError` | internal/sweeper/sweeper.go:92-96 | nil when no delete failed, else one aggregate of the employee failures followed by the department failures |
| `Sweeper.SweepErrorNilIff` | internal/sweeper/sweeper.go:92-96 | the sweep returns nil exactly when no delete failed, and otherwise lists every failure, employees first |
| `Sweeper.Sweeper.constructor` | internal/sweeper/sweeper.go:25-31 | `NewSweeper`: both ID lists start empty |
| `Sweeper.Sweeper.CollectWithPrefix` | internal/sweeper/sweeper.go:35-64 | appends the matching employee IDs then department IDs in list order; an employee-list error changes nothing; a department-list error keeps the employee IDs already added |
| `Sweeper.Sweeper.Sweep` | internal/sweeper/sweeper.go:68-97 | returns the aggregate of the failed deletes, employees then departments in attempt order, and changes no ID list |
| `Sweeper.Sweeper.AddEmployee` | internal/sweeper/sweeper.go:100-102 | appends one employee ID and leaves the department IDs alone |
| `Sweeper.Sweeper.AddDepartment` | internal/sweeper/sweeper.go:105-107 | appends one department ID and leaves the employee IDs alone |
| `ClientTest.ErrorListError` | client_test.go:71-80 | the string built up in the loop is `errors:` followed by ` <message>;` per error in order |
| `ClientTest.TestSweeper.CollectAll` | client_test.go:92-116 | appends the IDs of `gomtstest` employees then departments in list order; the first List error is returned at once, keeping what was appended before it |
| `ClientTest.TestSweeper.DeleteAll` | client_test.go:118-138 | nil exactly when every delete succeeds, else the error list of the failures, employees first |

## Findings

| source | as written | input that shows it | evidently intended | confidence | as-written member | corrected member |
|---|---|---|---|---|---|---|
| http.go:104-126 | `logRequest` and `logResponse` build `logr` with the `correlationID` attribute but emit the debug dump through the untagged `t.logr`; the tagged logger is used only on the dump-failure path | any call with `Debug` set, for two different correlation IDs: the two request dumps are identical and neither carries a `correlationID` | both dumps of one call carry its correlation ID, so request and response can be paired in the log | not executed | `Transport.DumpsUntaggedAsWritten` (over `Transport.RequestRecordAsWritten`, `Transport.ResponseRecordAsWritten`) | `Transport.DumpsShareCorrelationId` (over `Transport.RequestRecord`, `Transport.ResponseRecord`, which `Transport.MtsTransport.RoundTrip` logs) |

## Left out

- Networking: `http.DefaultTransport`, connections, redirects, cookies and timeouts are not
  modelled. The wrapped transport is the `respond` oracle, which answers with a status and a
  body or fails with any error value.
- `http.NewRequest` URL parsing is the `requestError` oracle. `*url.Error` is kept only as
  far as its op, URL and cause. Its message is modelled as `<Op> "<url>": <cause>` with the
  URL string as given. net/http actually prints the URL as net/url re-serialises it, with
  any password replaced by `***`, quoted with Go's `%q` escaping; neither step is modelled.
- `httputil.DumpRequestOut`/`DumpResponse`: dumps are modelled as the request and response
  they were taken of. The error branches for a failed dump are left out; they "should never
  happen" in the source.
- Transport.MtsTransport.LogResponse: with `Debug` set, `logResponse` reads
  `resp.Request.Context()` (http.go:125). A custom wrapped transport that answers with a
  response whose `Request` is nil makes `RoundTrip` panic there, before the body is closed.
  The `respond` oracle always yields a well-formed answer, so this panic is not modelled.
- The `EmployeeInStatus`/`EmployeeOutStatus` constants are left out. The client never
  compares against them, and an employee's status is kept as the string the service sends.
- The close-failure log of `mapResponseBody` is left out, because closing a body never fails
  in this model.
- slog is modelled only as an appended record list. Text formatting and level filtering are
  left out: `GetLogger` keeps the handler but not the `Debug` level threshold.
- `uuid.New()` is an opaque ID drawn from the `World`, not a formatted UUID.
- `context.Context` propagation, compile-time interface assertions, and the sweeper's
  `sync.Mutex` are left out. The sweeper operations run one at a time.
- The sweeper's `slog` "deleted employee"/"deleted department" records are left out. The
  source emits them after every attempt, including failed ones.
- `encoding/json` and `go-querystring` are library code that is not visible here:
  - Encoding is a pair of oracles that may fail.
  - Typed decoding is a `decode` parameter.
  - Only the tag-driven field-inclusion rules are modelled.
  - JSON key matching is exact, not case-insensitive.
  - Header keys are not canonicalised.
- Floats: the `HourlyRate` fields of `Employee`, `EmployeeCreateRequest` and
  `EmployeeUpdateRequest` are left out, and nothing is proved about the `hourly_rate` field:
  the model neither sends nor reads it, while the source sends it whenever the rate is set.
- Dispatch.MapResponseBody: on a decode error, the source returns the partly filled value
  together with the error. The model returns only the error, because every caller in the
  library discards the value when the error is non-nil.
- Nil request pointers passed to `Create`/`Update` are not modelled.
- Sweeper.Api: the sweepers see the client only through the answers of its List and Delete
  calls, given as values, not through the HTTP model. Each delete answer is a function of
  the ID alone, so an ID collected twice gets the same answer both times. The sweeper does
  not deduplicate IDs: `CollectWithPrefix` and `AddEmployee`/`AddDepartment` can append an ID
  that is already listed (internal/sweeper/sweeper.go:45-49, :100-102). Against the live
  service the second DELETE of an ID would fail, so for such lists the model reports fewer
  failures than a real sweep.
- Sweeper.SweepError: `gomts.ErrorList` is not part of this model. Its rendering is taken to
  be the test file's `errorList`, and the error values are the same.
- The test harness is left out: `TestMain`, `integrationTest`, `testResourceName`,
  `testClient`, `testSweeper.sweep` (which exits through `log.Fatalf`), and the live-API
  tests in employee_test.go.
- `os.Getenv` is a lookup in the `World`'s environment map.
