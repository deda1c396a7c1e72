/** Booking management: `BookClass`, `CancelBooking` and `GetBookings`. Each sends one request
    through the client's transport, accepts its own set of status codes, and turns any other
    status into an error carrying the code and the response body text. */
module Bookings {
  import opened Wrappers
  import opened Text
  import opened Http
  import opened Transport
  import opened Errors
  import opened Models
  import opened Env
  import opened Auth

  const BookingsPath := "bookings/me"
  const Locale := "en_US"
  const AcceptLanguage := "en-US,en;q=0.9"
  const UserAgent := "Orangetheory/403 CFNetwork/3826.600.41 Darwin/24.6.0"
  const TraceState := "1891601@nr=0-2-1891601-162062094-9ba640a524edf6ae---1756927588442"
  const NewRelic := "ewoiZCI6IHsKImFjIjogIjE4OTE2MDEiLAoiYXAiOiAiMTYyMDYyMDk0IiwKImlkIjogIjliYTY0MGE1MjRlZGY2YWUiLAoidGkiOiAxNzU2OTI3NTg4NDQyLAoidHIiOiAiNGYwYzI5MDc4NjA3NjAxODc4NGI3NTIxNTE5NzNiMDYiLAoidHkiOiAiTW9iaWxlIgp9LAoidiI6IFsKMCwKMgpdCn0="
  const TraceParent := "00-4f0c290786076018784b752151973b06-9ba640a524edf6ae-01"

  /** `Header.Set` for each pair in turn. */
  function SetInOrder(h: Header, pairs: seq<(string, string)>): Header
    decreases |pairs|
  {
    if |pairs| == 0 then h else SetInOrder(SetHeader(h, pairs[0].0, pairs[0].1), pairs[1..])
  }

  /** The headers `BookClass` sets; the token goes out raw, without a scheme. */
  function BookClassHeaders(token: string): seq<(string, string)>
  {
    [("Content-Type", JsonContentType), ("Accept", JsonContentType), ("Authorization", token),
     ("otf-locale", Locale), ("Accept-Language", AcceptLanguage), ("Accept-Encoding", "gzip"),
     ("User-Agent", UserAgent), ("tracestate", TraceState), ("newrelic", NewRelic),
     ("traceparent", TraceParent)]
  }

  /** The headers `CancelBooking` and `GetBookings` set. */
  function ReadHeaders(token: string): seq<(string, string)>
  {
    [("Authorization", token), ("otf-locale", Locale), ("Accept", JsonContentType),
     ("Accept-Language", AcceptLanguage), ("User-Agent", UserAgent)]
  }

  /** A request as the operation prepares it, before the URL is known; a new request starts
      with an empty, non-nil header map. */
  function Template(verb: string, query: map<string, seq<string>>, headers: seq<(string, string)>, body: Payload): Request
  {
    Request(verb, "", query, Some(SetInOrder(map[], headers)), body)
  }

  /** Joining the path, preparing the request and sending it: the response, or the error
      raised on the way. */
  function Exchange(c: Client, elements: seq<string>, template: Request, net: Net): (r: Result<Response, Error>)
    // A response comes back only for the template sent to the joined URL ...
    ensures r.Success? ==> var joined := net.joinPath(c.baseIOURL, elements);
      && joined.Success? && net.urlError(joined.value).None?
      && Send(c, template.(url := joined.value), net) == Received(r.value)
    // ... and each stage that fails names itself, wrapping its cause.
    ensures net.joinPath(c.baseIOURL, elements).Failure? ==>
      r == Failure(Wrapped("error joining path", net.joinPath(c.baseIOURL, elements).error))
    ensures var joined := net.joinPath(c.baseIOURL, elements);
      joined.Success? && net.urlError(joined.value).Some? ==>
        r == Failure(Wrapped("error preparing request", net.urlError(joined.value).value))
    ensures var joined := net.joinPath(c.baseIOURL, elements);
      joined.Success? && net.urlError(joined.value).None? && Send(c, template.(url := joined.value), net).SendFailed? ==>
        r == Failure(Wrapped("error executing request", Send(c, template.(url := joined.value), net).cause))
  {
    match net.joinPath(c.baseIOURL, elements)
    case Failure(cause) => Failure(Wrapped("error joining path", cause))
    case Success(url) =>
      if net.urlError(url).Some? then Failure(Wrapped("error preparing request", net.urlError(url).value))
      else
        match Send(c, template.(url := url), net)
        case SendFailed(cause) => Failure(Wrapped("error executing request", cause))
        case Received(res) => Success(res)
  }

  // ----- Error messages for an unexpected status -----

  function StatusPrefix(op: string, status: int): string
  {
    op + " request failed with status code: " + Decimal(status)
  }

  const BodySeparator := ", response body: "

  /** The error for an unexpected status: the code and the body text verbatim, or the read
      error when the body could not be read. */
  function StatusFailure(op: string, status: int, body: Body): (r: Error)
    ensures Contains(Message(r), Decimal(status))
    ensures body.Readable? ==> Contains(Message(r), body.text)
    ensures body.Readable? ==> ParseStatusFailure(op, Message(r)) == Some((status, body.text))
  {
    var prefix := op + " request failed with status code: ";
    match body
    case Readable(text) =>
      var r := Plain(StatusPrefix(op, status) + BodySeparator + text);
      assert Message(r) == prefix + Decimal(status) + (BodySeparator + text);
      ContainsMiddle(prefix, Decimal(status), BodySeparator + text);
      assert Message(r) == StatusPrefix(op, status) + BodySeparator + text + "";
      ContainsMiddle(StatusPrefix(op, status) + BodySeparator, text, "");
      StatusFailureParses(op, status, text);
      r
    case Unreadable(cause) =>
      var r := Wrapped(StatusPrefix(op, status) + ", and failed to read response body", cause);
      assert Message(r) == prefix + Decimal(status) + (", and failed to read response body: " + cause);
      ContainsMiddle(prefix, Decimal(status), ", and failed to read response body: " + cause);
      r
  }

  /** Reads the status code and the body back out of an unexpected-status message. */
  function ParseStatusFailure(op: string, msg: string): Option<(int, string)>
  {
    var prefix := op + " request failed with status code: ";
    if |msg| < |prefix| || msg[..|prefix|] != prefix then None
    else ParseStatusTail(msg[|prefix|..])
  }

  /** The part after the fixed prefix: the code up to the first comma, then the separator and
      the body. */
  function ParseStatusTail(rest: string): Option<(int, string)>
  {
    var i := IndexOf(rest, ',');
    var tail := rest[i..];
    if |tail| < |BodySeparator| || tail[..|BodySeparator|] != BodySeparator then None
    else
      match ParseDecimal(rest[..i])
      case None => None
      case Some(n) => Some((n, tail[|BodySeparator|..]))
  }

  lemma StatusTailParses(status: int, text: string)
    ensures ParseStatusTail(Decimal(status) + (BodySeparator + text)) == Some((status, text))
  {
    var d := Decimal(status);
    var rest := d + (BodySeparator + text);
    IndexOfAfter(d, BodySeparator + text, ',');
    assert rest[..|d|] == d;
    assert rest[|d|..] == BodySeparator + text;
    DecimalRoundTrip(status);
  }

  /** The message is unambiguous: the status and the body come back out of it, whatever the
      body holds. */
  lemma StatusFailureParses(op: string, status: int, text: string)
    ensures ParseStatusFailure(op, StatusPrefix(op, status) + BodySeparator + text) == Some((status, text))
  {
    var prefix := op + " request failed with status code: ";
    var rest := Decimal(status) + (BodySeparator + text);
    var msg := StatusPrefix(op, status) + BodySeparator + text;
    assert msg == prefix + rest;
    assert msg[..|prefix|] == prefix;
    assert msg[|prefix|..] == rest;
    StatusTailParses(status, text);
  }

  // ----- Classifying a response -----

  /** The body the failure branch reads: decompressed first only for a gzip-aware operation
      whose response declares a gzip content coding. */
  function FailureBody(res: Response, gzipAware: bool, gunzip: Body -> Result<Body, string>): (r: Result<Body, string>)
    ensures !gzipAware || !Contains(res.contentEncoding, "gzip") ==> r == Success(res.body)
    ensures r.Failure? ==> gzipAware && r == gunzip(res.body)
  {
    if gzipAware && Contains(res.contentEncoding, "gzip") then gunzip(res.body) else Success(res.body)
  }

  /** Any content coding that mentions gzip (`gzip`, `x-gzip`, `gzip, br`) sends the body of a
      gzip-aware operation through the decompressor. */
  lemma GzipCodingDetected(res: Response, before: string, after: string, gunzip: Body -> Result<Body, string>)
    requires res.contentEncoding == before + "gzip" + after
    ensures FailureBody(res, true, gunzip) == gunzip(res.body)
  {
    ContainsMiddle(before, "gzip", after);
  }

  /** The verdict on a response: nil for an accepted status, otherwise an error whose message
      holds the status code and, when the body could be read, the body text. */
  function Verdict(op: string, accepted: set<int>, gzipAware: bool, res: Response,
                   gunzip: Body -> Result<Body, string>): (r: Option<Error>)
    ensures r.None? <==> res.status in accepted
    ensures r.Some? ==> Contains(Message(r.value), Decimal(res.status))
    ensures var read := FailureBody(res, gzipAware, gunzip);
      r.Some? && read.Success? && read.value.Readable? ==>
        r.value == StatusFailure(op, res.status, read.value) && Contains(Message(r.value), read.value.text)
  {
    if res.status in accepted then None
    else
      match FailureBody(res, gzipAware, gunzip)
      case Failure(cause) =>
        var r := Wrapped(StatusPrefix(op, res.status) + ", failed to create gzip reader", cause);
        assert Message(r) == (op + " request failed with status code: ") + Decimal(res.status)
                             + (", failed to create gzip reader: " + cause);
        ContainsMiddle(op + " request failed with status code: ", Decimal(res.status),
                       ", failed to create gzip reader: " + cause);
        Some(r)
      case Success(body) => Some(StatusFailure(op, res.status, body))
  }

  // ----- The operations -----

  function BookClassTemplate(token: string, booking: CreateBookingRequest): Request
  {
    Template("POST", map[], BookClassHeaders(token), JsonBody(EncodeBookingRequest(booking)))
  }

  /** `BookClass` as written: 200 and 201 are success; any other status is an error whose body
      is decompressed first when the response is gzip-encoded. The deferred close error is
      assigned to a variable the function never returns, so it is lost. */
  function BookClass(c: Client, booking: CreateBookingRequest, net: Net): (r: Option<Error>)
    ensures var ex := Exchange(c, [BookingsPath], BookClassTemplate(c.token, booking), net);
      && (r.None? <==> ex.Success? && (ex.value.status == StatusOK || ex.value.status == StatusCreated))
      && (ex.Failure? ==> r == Some(ex.error))
      && (ex.Success? ==> r == Verdict("booking", {StatusOK, StatusCreated}, true, ex.value, net.gunzip))
  {
    match Exchange(c, [BookingsPath], BookClassTemplate(c.token, booking), net)
    case Failure(e) => Some(e)
    case Success(res) => Verdict("booking", {StatusOK, StatusCreated}, true, res, net.gunzip)
  }

  /** As written, a failing close after an accepted booking still reports success. */
  lemma BookClassDropsCloseError(c: Client, booking: CreateBookingRequest, net: Net)
    requires var ex := Exchange(c, [BookingsPath], BookClassTemplate(c.token, booking), net);
      ex.Success? && ex.value.status == StatusOK && ex.value.closeError.Some?
    ensures BookClass(c, booking, net).None?
  {
  }

  /** `BookClass` with the close error reported the way `Authenticate` reports it: only when
      nothing failed before. */
  function BookClassReportingClose(c: Client, booking: CreateBookingRequest, net: Net): (r: Option<Error>)
    ensures var ex := Exchange(c, [BookingsPath], BookClassTemplate(c.token, booking), net);
      && (r.None? <==> ex.Success? && (ex.value.status == StatusOK || ex.value.status == StatusCreated)
                       && ex.value.closeError.None?)
      && (BookClass(c, booking, net).Some? ==> r == BookClass(c, booking, net))
  {
    var ex := Exchange(c, [BookingsPath], BookClassTemplate(c.token, booking), net);
    AfterClose(BookClass(c, booking, net), if ex.Success? then ex.value.closeError else None)
  }

  /** Once authenticated, the raw token `BookClass` puts in `Authorization` never reaches the
      wire: the installed middleware replaces it with the bearer credential. */
  lemma BookClassSendsBearer(c: Client, booking: CreateBookingRequest, net: Net, url: string)
    requires c.transport == BearerTransport(c.token)
    ensures var d := Delivered(c.transport, BookClassTemplate(c.token, booking).(url := url));
      d.header.Some? && "Authorization" in d.header.value
      && d.header.value["Authorization"] == ["Bearer " + c.token]
  {
    BearerOnWire(c.token, BookClassTemplate(c.token, booking).(url := url), net.wire);
  }

  function CancelTemplate(token: string): Request
  {
    Template("DELETE", map[], ReadHeaders(token), NoBody)
  }

  /** `CancelBooking`: a DELETE of `bookings/me/{id}`; 200 and 204 are success, and any other
      status is an error carrying the raw body, whatever its content coding. */
  function CancelBooking(c: Client, bookingId: string, net: Net): (r: Option<Error>)
    ensures var ex := Exchange(c, [BookingsPath, bookingId], CancelTemplate(c.token), net);
      && (r.None? <==> ex.Success? && (ex.value.status == StatusOK || ex.value.status == StatusNoContent))
      && (ex.Failure? ==> r == Some(ex.error))
      && (ex.Success? && r.Some? && ex.value.body.Readable? ==>
            r.value == StatusFailure("cancel", ex.value.status, ex.value.body)
            && Contains(Message(r.value), ex.value.body.text))
  {
    match Exchange(c, [BookingsPath, bookingId], CancelTemplate(c.token), net)
    case Failure(e) => Some(e)
    case Success(res) => Verdict("cancel", {StatusOK, StatusNoContent}, false, res, net.gunzip)
  }

  /** The `GetBookings` query: exactly the three keys, each with one value. */
  function BookingsQuery(startsAfter: string, endsBefore: string, includeCanceled: bool): (r: map<string, seq<string>>)
    ensures r.Keys == {"starts_after", "ends_before", "include_canceled"}
    ensures r["starts_after"] == [startsAfter] && r["ends_before"] == [endsBefore]
    ensures |r["include_canceled"]| == 1 && ParseBool(r["include_canceled"][0]) == Some(includeCanceled)
  {
    map["starts_after" := [startsAfter], "ends_before" := [endsBefore], "include_canceled" := [BoolText(includeCanceled)]]
  }

  function GetBookingsTemplate(token: string, startsAfter: string, endsBefore: string, includeCanceled: bool): Request
  {
    Template("GET", BookingsQuery(startsAfter, endsBefore, includeCanceled), ReadHeaders(token), NoBody)
  }

  /** `GetBookings` with its two timestamps already formatted: only 200 is success, and then
      the envelope's `items` come back (its `booking` is ignored); a body that fails to decode
      is an error of its own, never a partial list. */
  function GetBookings(c: Client, startsAfter: string, endsBefore: string, includeCanceled: bool, net: Net)
    : (r: Result<seq<Booking>, Error>)
    ensures var ex := Exchange(c, [BookingsPath], GetBookingsTemplate(c.token, startsAfter, endsBefore, includeCanceled), net);
      && (r.Success? <==> ex.Success? && ex.value.status == StatusOK && ex.value.body.Readable?
                          && net.decodeBookings(ex.value.body.text).Success?)
      && (r.Success? ==> r.value == net.decodeBookings(ex.value.body.text).value.items)
      && (ex.Success? && ex.value.status != StatusOK ==>
            r == Failure(StatusFailure("get bookings", ex.value.status, ex.value.body)))
      && (ex.Success? && ex.value.status == StatusOK && ex.value.body.Readable?
          && net.decodeBookings(ex.value.body.text).Failure? ==>
            r == Failure(Wrapped("error unmarshaling response", net.decodeBookings(ex.value.body.text).error)))
  {
    match Exchange(c, [BookingsPath], GetBookingsTemplate(c.token, startsAfter, endsBefore, includeCanceled), net)
    case Failure(e) => Failure(e)
    case Success(res) =>
      if res.status != StatusOK then
        Failure(Verdict("get bookings", {StatusOK}, false, res, net.gunzip).value)
      else
        match res.body
        case Unreadable(cause) => Failure(Wrapped("error reading response body", cause))
        case Readable(text) =>
          match net.decodeBookings(text)
          case Failure(cause) => Failure(Wrapped("error unmarshaling response", cause))
          case Success(envelope) => Success(envelope.items)
  }
}
