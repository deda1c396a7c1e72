/** The library code and remote service the client calls into, as total functions supplied by
    the caller of each operation: nothing here is interpreted by the model. */
module Env {
  import opened Wrappers
  import opened Http
  import opened Transport
  import opened Models

  datatype Net = Net(
    /** What a base transport answers to the request it is handed. */
    wire: (BaseTransport, Request) -> Reply,
    /** `http.NewRequestWithContext`'s verdict on a URL: the reason it is rejected, if it is. */
    urlError: string -> Option<string>,
    /** `url.JoinPath(base, elements...)`. */
    joinPath: (string, seq<string>) -> Result<string, string>,
    /** `gzip.NewReader` over a body: a header error, or the body as the decompressing reader
        yields it to `io.ReadAll`. */
    gunzip: Body -> Result<Body, string>,
    /** Decoding an `AuthenticateResponse` from a body: the `IdToken` ("" when the field is
        absent), or the decoder's error. */
    decodeAuth: Body -> Result<string, string>,
    /** `json.Unmarshal` of a bookings-list envelope. */
    decodeBookings: string -> Result<BookingEnvelope, string>)
}
