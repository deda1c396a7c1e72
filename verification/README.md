# otf_api core in Dafny

A model of the client core of `otf_api`, an unofficial Go client for the Orangetheory Fitness
booking API, and of the pure helpers of its `otf-cli` command-line tool.

- **Transport** (`middleware.dfy`): a round tripper is either a base transport or a header-setting
  layer over another one. `Chain` folds the middlewares left to right, so the last one listed
  ends up outermost. `Delivered` is the request the base transport finally sees. Headers are
  keyed by their canonical form, as `Header.Set` canonicalises keys (`http.dfy`).
- **Auth** (`auth.dfy`): the client record, `NeedAuth`, and `Authenticate`. It sends the Cognito
  `InitiateAuth` request, reads the `IdToken`, installs it, and replaces the transport with a
  chain that adds `Authorization: Bearer <token>` and `Content-Type: application/json`. It also
  reports a close error through its named result.
- **Bookings** (`booking.dfy`): `BookClass`, `CancelBooking` and `GetBookings`. The model covers
  their fixed headers, their status acceptance (200/201, 200/204 and 200), the gzip branch of
  `BookClass`'s error path, the shape of the error messages, and the `GetBookings` query.
- **CLI helpers**:
  - `padOrTruncate` and the schedule-table layout (`cli_layout.dfy`).
  - The round-robin studio colours (`cli_colors.dfy`).
  - The timezone options, default and stored value (`cli_timezone.dfy`).
  - The active-booking filter, the preferred-studio selection, and the booking and waitlist
    decision (`cli_selection.dfy`).

The library calls the core makes are parameters, bundled in the `Env.Net` record of total
functions:

- the HTTP exchange itself (`wire`);
- URL validation and joining;
- gzip decompression;
- the JSON decoding of the two response shapes.

A failed exchange, an unreadable body and a failed decode are all values, so every error path
of the source is a branch of the model. Errors follow `fmt.Errorf`: `Wrapped(context, cause)`
for `%w`, which prints as `context: cause`.

Two behaviours of the code are easy to misread:

- **Which middleware wins.** In `Chain` the last-listed middleware is the outermost layer, so
  it writes first and the first-listed middleware writes last. When two middlewares set the
  same header, the first-listed value is the one delivered (`Transport.FirstListedWins`).
- **A missing token.** `Authenticate` does not check that the decoded response carries an
  `IdToken`. When it does not, the empty token is stored and nil is returned (see Findings).

## Model

| member | source | states |
|---|---|---|
| Transport.Chain | otf_api/middleware.go:13-23 | A nil transport becomes the default transport. Each middleware adds exactly one layer. The base transport is never replaced. No middlewares gives back the transport itself. |
| Transport.RoundTrip | otf_api/middleware.go:5-9 | A chain's `RoundTrip` is the base transport's reply to the request the layers hand down, unchanged. |
| Transport.ChainDelivers | otf_api/middleware.go:13-39 | Sending through `Chain(rt, ms)` delivers the request with `ms[n-1]` applied first and `ms[0]` last, then passes it to `rt`. |
| Transport.ChainRoundTrip | otf_api/middleware.go:13-39 | The reply through the chain is the base transport's reply to that stamped request. |
| Transport.Delivered | otf_api/middleware.go:27-37 | Only the header map of the request changes on its way through the setters. A nil map stays nil. Otherwise the map gains the setters' canonical keys, every other key keeps its values, and the outermost setter's value arrives when no inner setter writes the same key. |
| Transport.NilHeaderUntouched | otf_api/middleware.go:28-32 | A request with a nil header map, handed to `AddHeader`'s round tripper directly, reaches the base transport unchanged, because the header is set on a fresh local map. |
| Transport.FirstListedWins | otf_api/middleware.go:18-20 | When several middlewares set the same canonical key, the first-listed one's value is the one delivered. |
| Transport.UnsetKeysUntouched | otf_api/middleware.go:25-39 | A header key that no middleware sets arrives exactly as the caller set it, or stays absent. |
| Transport.SetAllKeys | otf_api/middleware.go:25-39 | The delivered key set is the caller's keys plus the canonical keys of the middlewares. |
| Transport.EveryHeaderArrives | otf_api/middleware.go:13-39 | With distinct keys, every middleware's value arrives under its canonical key. |
| Transport.OrderIrrelevantForDistinctKeys | otf_api/middleware.go:13-39 | With distinct keys, any reordering of the middlewares delivers the same headers. |
| Http.SetHeader | otf_api/middleware.go:34 | `Header.Set` makes the canonical key hold exactly the one value. It adds that key and leaves every other key as it was. |
| Http.CanonicalKeyIdempotent | otf_api/auth.go:106-107 | Canonicalising a header key twice is the same as once. |
| Http.AuthorizationKey | otf_api/auth.go:106 | `CanonicalHeaderKey("authorization")` is `Authorization`, the key `BookClass` sets directly. |
| Http.ContentTypeKey | otf_api/auth.go:107 | `CanonicalHeaderKey("content-type")` is `Content-Type`. |
| Auth.NeedAuthAfterInstall | otf_api/auth.go:115-117 | `NeedAuth` is false after installing a token exactly when that token is not empty. The installed client sends through the bearer chain. |
| Auth.Send | otf_api/auth.go:80 | `HTTPClient.Do` gives a request with a nil header map an empty map, then makes one round trip through the client's transport. |
| Auth.AuthRequest | otf_api/auth.go:46-78 | A POST to the authentication URL with no query. The header map holds exactly `Content-Type: application/x-amz-json-1.1` and the `X-Amz-Target` of `InitiateAuth`. The payload reads back to the username, password and client ID given, with the `USER_PASSWORD_AUTH` flow. |
| Auth.AuthPayloadRoundTrip | otf_api/auth.go:46-53 | The authentication payload reads back to the credentials, flow and client ID it was built from. |
| Auth.AfterClose | otf_api/auth.go:85-93 | The deferred close reports its error only when the named result was nil. An earlier error is kept. |
| Auth.Authenticate | otf_api/auth.go:40-112 | With a token present nothing is sent and nothing changes. Otherwise the one fixed-shape request goes out unless its URL is rejected. A decoded token is stored and the bearer chain installed, and the result is then nil unless closing the body fails. Any other outcome leaves the client as it was and returns an error. A close error is reported only after a successful decode. |
| Auth.MissingTokenAccepted | otf_api/auth.go:95-103 | As written, a response that decodes with no `IdToken` returns nil, yet the client still needs authentication. |
| Auth.RejectedLoginAccepted | otf_api/auth.go:95-103 | As written, a 400 reply carrying a `NotAuthorizedException` document decodes to an empty `IdToken`, and `Authenticate` returns nil with the client still needing authentication. |
| Auth.AuthenticateRequiringToken | otf_api/auth.go:95-108 | Corrected: a reply that decodes without a token gives an error, and the client is left unchanged. Every other call, one with a real token included, behaves exactly as `Authenticate` does. So a nil result implies that the client holds a token. |
| Auth.SecondAuthenticateIsNoop | otf_api/auth.go:115-117 | After a successful authentication, `NeedAuth` is false and a second call sends nothing and changes nothing. |
| Auth.BearerOnWire | otf_api/auth.go:104-108 | Through the installed chain, every request reaches the default transport with `Authorization: Bearer <token>` and `Content-Type: application/json`, whatever the caller set. Every other header and field passes through unchanged. |
| Models.EncodeBookingRequest | otf_api/booking.go:84 | The booking payload decodes back to the same class ID, confirmation flag and waitlist flag. |
| Bookings.StatusFailure | otf_api/booking.go:147 | A status failure's message contains the decimal status code and the body text, and both can be parsed back out of it. |
| Bookings.StatusFailureParses | otf_api/booking.go:147 | The message `<op> request failed with status code: <n>, response body: <text>` parses back to `(n, text)`. |
| Bookings.Exchange | otf_api/booking.go:92-118 | A response comes back only for the template sent to the joined URL. A failed join, a rejected URL and a failed send each give their own wrapped error. |
| Bookings.FailureBody | otf_api/booking.go:130-140 | The body is read raw unless the operation is gzip-aware and the content coding mentions `gzip`. Only the decompressor can fail. |
| Bookings.GzipCodingDetected | otf_api/booking.go:133 | Any content coding containing `gzip` sends the body through the decompressor. |
| Bookings.Verdict | otf_api/booking.go:129-148 | A response gives nil exactly when its status is accepted. Otherwise the error names the status and, when the body (decompressed if gzip-encoded and gzip-aware) is readable, the body text. |
| Bookings.BookClass | otf_api/booking.go:80-151 | The call succeeds exactly when the exchange succeeds with 200 or 201. Join, prepare and send errors pass through. Other statuses give the verdict with the gzip branch. |
| Bookings.BookClassDropsCloseError | otf_api/booking.go:119-127 | As written, an accepted booking whose body fails to close still returns nil. |
| Bookings.BookClassReportingClose | otf_api/booking.go:119-127 | Corrected: success exactly when the status is accepted and the close succeeds. Every earlier error is kept. |
| Bookings.BookClassSendsBearer | otf_api/booking.go:102-104 | For an authenticated client, the raw token set in `Authorization` is overwritten on the wire by `Bearer <token>`. |
| Bookings.CancelBooking | otf_api/booking.go:154-193 | A DELETE of `bookings/me/{id}` succeeds exactly on 200 or 204. Any other status is an error carrying the raw body. |
| Bookings.BookingsQuery | otf_api/booking.go:207-211 | The query holds exactly `starts_after`, `ends_before` and `include_canceled`, one value each. The flag reads back as the boolean given. |
| Bookings.GetBookings | otf_api/booking.go:196-259 | The call succeeds exactly on 200 with a readable body that decodes, and returns the envelope's `items`. A non-200 status gives the status failure. A decode failure gives `error unmarshaling response`. |
| Layout.PadOrTruncate | cmd/otf-cli/main.go:795-803 | The result is exactly `width` runes. A long string is cut to its prefix. A short one is kept and padded with spaces. |
| Layout.PadOrTruncateIdempotent | cmd/otf-cli/main.go:795-803 | A string of the right width is unchanged, so fitting twice equals fitting once. |
| Layout.EntryWidth | cmd/otf-cli/main.go:611-618 | The entry width is 110 from a 120-column terminal up, 70 below 100 columns, and 90 in between. |
| Layout.ColumnMaxima | cmd/otf-cli/main.go:620-639 | Every class that is not canceled fits its column widths. Each width is reached by such a class, or is 0 when none is. |
| Layout.StudioColumnWidth | cmd/otf-cli/main.go:641-648 | The studio column is at least 10 wide. When the space left is enough, it is exactly what the other columns and three 2-space gaps leave of the entry width. |
| Layout.ScheduleRow | cmd/otf-cli/main.go:689-704 | A row is exactly the entry width. When the columns fit, the name and both times sit at their fixed offsets, each fitted to its column. |
| StudioColors.ShownStudioIds | cmd/otf-cli/main.go:652-658 | The studio IDs of exactly the classes that are not canceled. |
| StudioColors.ShownStudioIdsAppend | cmd/otf-cli/main.go:652-658 | The IDs of a concatenation are those of each part in turn, so they follow the schedule's order. |
| StudioColors.FirstSeen | cmd/otf-cli/main.go:657-665 | The distinct studio IDs, with the same members as the list they come from. |
| StudioColors.FirstSeenPrefix | cmd/otf-cli/main.go:657-665 | Seeing more IDs only appends: the IDs first seen in a prefix keep their places. |
| StudioColors.FirstSeenHead | cmd/otf-cli/main.go:657-665 | The first ID is the first one seen. |
| StudioColors.FirstSeenSnoc | cmd/otf-cli/main.go:657-665 | An ID not seen before goes to the end, and one seen before changes nothing. |
| StudioColors.ColorOfExtend | cmd/otf-cli/main.go:657-665 | A later row never changes an earlier studio's colour. A new studio gets the palette entry after those handed out so far. |
| StudioColors.AssignColors | cmd/otf-cli/main.go:657-665 | Each row gets its studio's colour, so the same studio always has the same colour. A studio's first row takes palette entry (number of studios seen before) mod 7. The map holds exactly the studios shown. The counter ends at the number of distinct studios. |
| StudioColors.ScheduleColors | cmd/otf-cli/main.go:652-665 | Over a schedule, every row shown gets its studio's colour, and the map colours exactly the studios of the classes that are not canceled. |
| Timezones.TimezoneOptions | cmd/otf-cli/main.go:212-250 | The options are the 13 common zones, then the configured zone if it is set and not already listed, then the system-local option last. A configured zone appears exactly once. |
| Timezones.DefaultTimezone | cmd/otf-cli/main.go:258-268 | The default is always one of the options: the configured zone when one is set, otherwise the system-local option. |
| Timezones.StoredTimezone | cmd/otf-cli/main.go:274-279 | Choosing the system-local option clears the setting. Any other choice is stored as is. |
| Timezones.DefaultKeepsConfiguration | cmd/otf-cli/main.go:258-279 | Accepting the default leaves the configured timezone as it was, unless it holds the system-local label itself. |
| Selection.ActiveBookings | cmd/otf-cli/main.go:344-349 | Exactly the bookings that are not canceled are kept, each with its multiplicity. |
| Selection.ActiveBookingsAppend | cmd/otf-cli/main.go:344-349 | Filtering commutes with concatenation, so the kept bookings stay in their original order. |
| Selection.ActiveBookingsIdempotent | cmd/otf-cli/main.go:344-349 | Filtering the active bookings again changes nothing. |
| Selection.StudioMap | cmd/otf-cli/main.go:161-167 | The picker map's names are exactly the display names offered. Each maps to the ID of a studio shown under that name. |
| Selection.StudioMapLastWins | cmd/otf-cli/main.go:163-167 | When display names repeat, the last studio shown under a name is the one it maps to. |
| Selection.SelectedStudioIds | cmd/otf-cli/main.go:179-184 | Known names map to their IDs in the order chosen, and unknown names are skipped. If every name is known, the list lines up one to one with the choice. |
| Selection.SelectedStudioIdsAppend | cmd/otf-cli/main.go:179-184 | Selecting from a concatenation selects from each part in turn, which fixes the order. |
| Selection.SelectedStudioIdsSingle | cmd/otf-cli/main.go:180-183 | One known name gives its ID, and one unknown name gives nothing. |
| Selection.SelectedIdsAreOffered | cmd/otf-cli/main.go:161-184 | Every saved ID belongs to a studio that was offered. |
| Selection.BookingRequestFor | cmd/otf-cli/main.go:753-775 | The request is for the chosen class and never confirmed. It is a waitlist request exactly when the booking capacity is 0 or less. |
| Selection.BookingDecision | cmd/otf-cli/main.go:753-775 | A request is sent exactly when the user wants to book and the class has room or the user accepts the waitlist. |

## Left out

- The network, contexts, deadlines and the `http.Client` machinery (redirects, connection reuse): the exchange is the `wire` parameter.
- URL parsing and `url.JoinPath`, gzip decompression and JSON decoding: library code, passed in as functions of `Env.Net`.
- `json.Marshal` failures (`failed marshaling request body`): the payloads are fixed records of strings and booleans, so marshaling cannot fail.
- Query-string encoding (`params.Encode`) and RFC 3339 formatting of the two `GetBookings` times: the query is modelled as its key-to-values map, with the times passed in already formatted.
- `Auth.Authenticate`: the client identifier is a parameter rather than read from the `OTF_CLIENT_ID` environment variable.
- Logging (`log.Printf`): it has no effect on any result.
- `generateAWSSignature` in auth.go: no core operation calls it.
- `NewClient`, the schedule and studio endpoints, and the response types of otf_api.go, schedule.go, studios.go and models.go: not part of the core.
- The CLI's prompts, terminal-size detection, configuration file I/O, `formatTime`, day headers and ANSI colouring. Each becomes a parameter (`format`, `display`, the chosen values) or is left out.
- In-place mutation: `AddHeader` writes into the caller's own header map, and the model returns the delivered request instead. A caller that reuses a request afterwards would see the added headers. The model does not express that aliasing.
- Layout.PadOrTruncate: `width` is a natural number. The Go function panics on `runes[:width]` for a negative width, but no call site passes one.
- Transport.NilHeaderUntouched: it describes `AddHeader`'s round tripper called directly. A request sent through `HTTPClient.Do` never reaches a transport with a nil header map, since `Do` gives it an empty one first (`Auth.Send`).
- Strings are sequences of runes. Go's handling of invalid UTF-8 in `[]rune(s)` is not modelled.
- Timezones.TimezoneOptions: the "exactly once" clause excludes a configured value that is literally `System Local Timezone`. In that case the code lists that label twice.
- Models.EncodeBookingRequest: the JSON keys (`classId`, `confirmed`, `waitlist`) follow the documented payload shape. The Go declaration of `CreateBookingRequest` is not part of this model.
- `CancelBooking` and `GetBookings` log a failed close instead of returning it. The model reflects that by never reading `closeError` in them.

## Findings

| source | as written | input that shows it | evidently intended | confidence | as-written member | corrected member |
|---|---|---|---|---|---|---|
| otf_api/booking.go:119-127 | The deferred close handler assigns `err`, but `BookClass` has an unnamed result, so the assignment never reaches the caller. | A 200 or 201 response whose `Body.Close` fails: `BookClass` returns nil. | Report the close error when nothing failed before, as `Authenticate` does with its named result. | not executed | Bookings.BookClassDropsCloseError | Bookings.BookClassReportingClose |
| otf_api/auth.go:95-103 | A decoded response with no `AuthenticationResult.IdToken` stores the empty token and returns nil. | A 400 reply `{"__type":"NotAuthorizedException"}` decodes without error to an empty `IdToken`. | Treat a missing token as an authentication failure, and leave the client needing authentication with an error returned. | not executed | Auth.MissingTokenAccepted | Auth.AuthenticateRequiringToken |
