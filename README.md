# Snippetbox request handlers, modelled in Dafny

This project models the request-classification core of a small Go web application for
short text snippets: the three HTTP handlers in `cmd/web/handlers.go`.

- `home` lists the latest snippets.
- `showSnippet` shows one snippet, chosen by the `id` query value.
- `createSnippet` inserts a snippet and redirects to its page.

Each handler decides which response the client gets: 404, 405 with an `Allow` header,
500, a 303 redirect, or a rendered page. It decides from the request path, the HTTP
method, the `id` value, and whether the store and template calls succeed.

Files:

- `wrappers.dfy`: `Option` and `Result`.
- `strconv.dfy` (module `Strconv`): Go's `strconv.Atoi` as a decimal parser for a 64-bit
  `int`, and `fmt.Sprintf("%d", ...)` as `FormatInt`. Both round trips are proved.
- `models.dfy` (module `Models`): the `Snippet` value and the error values a handler sees.
  `IsNoRecord` is `errors.Is(err, models.ErrNoRecord)` for errors that wrap at most one
  error each.
- `responses.dfy` (module `Responses`): the events of a handler's trace. Events are the
  store and template calls plus the writes to the `http.ResponseWriter`. The module also
  defines the class `Trace` that handlers append to, and three observers. `Writes` lists
  the writes. `StoreCalls` lists the store calls. `CommittedStatus` is the status of the
  first write, which is what the client receives.
- `handlers.dfy` (module `Handlers`): the handlers as methods that append to a `Trace`.
  Each is proved equal to a function of its inputs: `HomeEvents`, `ShowEvents`,
  `CreateEvents`.
- `handler_properties.dfy` (module `HandlerProperties`): what those functions promise.

The store's answers (`Latest`, `Get`, `Insert`) and the template outcomes (`ParseFiles`,
`Execute`) are parameters of each handler. `Execute` writes to the response as it runs,
so its failure says whether output was already written.

Notes on the code:

- Creation inserts fixed title, content and expiry values ("7") without validating them.
- `createSnippet` itself rejects methods other than POST.
- `home` goes on after reporting a `Latest` failure.
- Templates execute straight into the response rather than into a buffer.

## Model

| member | source | states |
|---|---|---|
| `Strconv.Atoi` | cmd/web/handlers.go:56 | an accepted text is an optional sign followed by ASCII digits only; a negative result comes from a leading '-' |
| `Strconv.AtoiSignedDigits` | cmd/web/handlers.go:56 | every optional sign ("", "+", "-") followed by one or more digits is accepted with its signed value when that value fits Go's 64-bit `int`, and rejected otherwise |
| `Strconv.FormatNat` | cmd/web/handlers.go:118 | the digits written for n are ASCII digits, read back as n, and start with '0' only for 0 |
| `Strconv.AtoiFormatInt` | cmd/web/handlers.go:118 | `Atoi` reads back every 64-bit value that `%d` formatting writes |
| `Strconv.FormatIntCanonical` | cmd/web/handlers.go:118 | `%d` formatting writes only canonical text: optional '-', no leading zero, no "-0" |
| `Strconv.FormatIntAtoi` | cmd/web/handlers.go:56 | for canonical text that `Atoi` accepts, formatting the value gives the same text back |
| `Strconv.AtoiLeadingZero` | cmd/web/handlers.go:56 | `Atoi` ignores leading zeros, so "007" selects snippet 7 |
| `Models.IsNoRecordCause` | cmd/web/handlers.go:66 | `errors.Is(err, ErrNoRecord)` holds exactly when the innermost wrapped error is ErrNoRecord |
| `Handlers.ValidId` | cmd/web/handlers.go:56-57 | an accepted id is at least 1, and its text is non-empty, carries no '-', and is decimal digits (after an optional '+') whose value is the id |
| `Handlers.Home` | cmd/web/handlers.go:16-50 | the handler's trace, step by step as written, equals `HomeEvents`; nothing else is written |
| `Handlers.HomeIntended` | cmd/web/handlers.go:16-50 | `home` with the two defects corrected appends exactly `HomeIntendedEvents` |
| `Handlers.ShowSnippet` | cmd/web/handlers.go:52-96 | the handler's trace, step by step, equals `ShowEvents` |
| `Handlers.CreateSnippet` | cmd/web/handlers.go:98-119 | the handler's trace, header change included, equals `CreateEvents` |
| `HandlerProperties.RenderCallsNoStore` | cmd/web/handlers.go:39-48 | parsing and executing templates never calls the store |
| `HandlerProperties.RenderWrites` | cmd/web/handlers.go:85-95 | a parse failure writes its error alone; otherwise the page output, if any, comes first, then the reported error if execution fails |
| `HandlerProperties.HomeOtherPathNotFound` | cmd/web/handlers.go:19-23 | any path other than "/" gets a single 404 write, with no store query and no template |
| `HandlerProperties.HomeQueriesStoreOnRoot` | cmd/web/handlers.go:19-25 | `Latest` is called exactly once when the path is "/", and never otherwise |
| `HandlerProperties.HomeLatestFailureContinues` | cmd/web/handlers.go:25-43 | after a `Latest` failure the 500 is written, the templates are still parsed, and at least two writes reach the response |
| `HandlerProperties.HomeExecFailureReportsNil` | cmd/web/handlers.go:39-48 | on an `Execute` failure the error reported is nil, and the execution error is reported only if `Latest` returned that same error |
| `HandlerProperties.HomeSuccess` | cmd/web/handlers.go:25-48 | when everything succeeds, the page with the latest snippets is the only write, status 200 |
| `HandlerProperties.HomeIntendedStopsOnLatestFailure` | cmd/web/handlers.go:25-28 | corrected: a `Latest` failure gives exactly one 500 write and no template work |
| `HandlerProperties.HomeIntendedWritesOnce` | cmd/web/handlers.go:25-48 | corrected: at most one write, unless a template fails after writing part of the page |
| `HandlerProperties.HomeIntendedReportsCause` | cmd/web/handlers.go:46-47 | corrected: every reported server error carries a non-nil cause, and an `Execute` failure ends the trace with a 500 carrying the execution error (`terr`) |
| `HandlerProperties.HomeIntendedAgrees` | cmd/web/handlers.go:25-48 | the written and corrected handlers agree exactly when neither defect is reached (both directions) |
| `HandlerProperties.ShowValidatesBeforeStore` | cmd/web/handlers.go:56-64 | an id that does not parse, is empty or missing, or is below 1 gets a single 404 with no store call and no template; any other id is looked up exactly once |
| `HandlerProperties.ShowMissingIdNotFound` | cmd/web/handlers.go:56-60 | a request without an `id`, or with an empty one, gets only a 404 |
| `HandlerProperties.ShowClassifiesStoreError` | cmd/web/handlers.go:64-72 | a store error ends the request with no template work: 404 when its root cause is ErrNoRecord, otherwise 500 with that error |
| `HandlerProperties.ShowParseFailureStops` | cmd/web/handlers.go:85-89 | a template parse failure is the one write, it ends the trace, and `Execute` is never reached |
| `HandlerProperties.ShowExecutesFoundSnippet` | cmd/web/handlers.go:75-95 | `Execute` is reached only after a valid id, a found snippet and a successful parse, and receives that snippet |
| `HandlerProperties.ShowExecFailure` | cmd/web/handlers.go:93-95 | an `Execute` failure after a found snippet writes the page output, if any, then one 500 carrying the execution error, which ends the trace |
| `HandlerProperties.ShowSuccess` | cmd/web/handlers.go:64-95 | when everything succeeds, the snippet's page is the only write, status 200 |
| `HandlerProperties.CreateRejectsOtherMethods` | cmd/web/handlers.go:100-104 | any method but POST sets `Allow: POST` and then gets 405, with no store call |
| `HandlerProperties.CreateInsertsOnlyOnPost` | cmd/web/handlers.go:100-111 | `Insert` is called once, with the fixed values, exactly when the method is POST |
| `HandlerProperties.CreateOutcome` | cmd/web/handlers.go:111-118 | an `Insert` error gives a 500 with that error and no redirect; a new id gives a 303 to "/snippet?id=" followed by the decimal id |
| `HandlerProperties.CreateRedirectReachesShow` | cmd/web/handlers.go:111-118 | the redirect's `id` value is plain digits for ids of 1 or more; `showSnippet`'s validation (lines 56-57) reads it back as the same id, and the store is then asked for that id; an id below 1 would get a 404 |

## Findings

| source | as written | input that shows it | evidently intended | confidence | as-written member | corrected member |
|---|---|---|---|---|---|---|
| cmd/web/handlers.go:26-28 | after `serverError` for a failed `Latest` there is no `return`; the templates are still parsed and executed | `Latest` fails and the templates parse and render: the 500 error text is followed by the home page in the same response | return after reporting the error, as every other error branch in the file does | high; not executed | `HandlerProperties.HomeLatestFailureContinues` | `HandlerProperties.HomeIntendedStopsOnLatestFailure` |
| cmd/web/handlers.go:46-47 | an `Execute` failure is reported with `err`, the error of `ParseFiles`, which is nil at that point | the templates parse and `Execute` fails: `serverError` receives nil and the execution error is lost | report `terr` | high; not executed | `HandlerProperties.HomeExecFailureReportsNil` | `HandlerProperties.HomeIntendedReportsCause` |

## Left out

- The snippet store (`Latest`, `Get`, `Insert`, `models.ErrNoRecord`) is not part of this model. Its answers are parameters, so expiry, ordering and the cap on `Latest` are not modelled.
- Template loading and execution (`html/template`, the `./ui/html` files) are not modelled. They appear as parse and execute outcomes, and the outcome records whether `Execute` wrote output before failing.
- The helpers `notFound`, `serverError` and `clientError` are not part of this model. They are events, with the statuses their names denote: 404, 500 and the given status. What `serverError` does with a nil error is not modelled.
- `http.Redirect` is one event; the `Location` header and the redirect body are not modelled.
- After a `Latest` error the page is rendered with an empty list: the model's store answer holds either snippets or an error, so whatever `Latest` returned alongside its error is not modelled.
- Errors are modelled with single wrapping only: `errors.Is` following `Unwrap() []error` (`errors.Join`, several `%w`) or calling an error's own `Is` method is not modelled.
- Query-string decoding is not modelled: a request carries its query already decoded.
- `Atoi` assumes Go's 64-bit `int`. A value out of that range is an error, as in Go.
- The model does not cover logging, concurrency between requests, or how net/http treats a second write. `CommittedStatus` takes the first write's status, as net/http does.
