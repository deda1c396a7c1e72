/** The client record and its token lifecycle: `NeedAuth` and `Authenticate`. */
module Auth {
  import opened Wrappers
  import opened Json
  import opened Http
  import opened Transport
  import opened Errors
  import opened Env

  /** `Client`: two API base URLs, the authentication endpoint, the bearer token ("" until
      authenticated) and the transport of its HTTP client. */
  datatype Client = Client(
    baseIOURL: string,
    baseCOURL: string,
    authURL: string,
    token: string,
    transport: RoundTripper)

  /** `NeedAuth`: the client holds no token. */
  predicate NeedAuth(c: Client)
  {
    c.token == ""
  }

  /** Installing a token settles `NeedAuth`: it is false exactly when the installed token is
      not empty, and the client then sends through the bearer chain. */
  lemma NeedAuthAfterInstall(c: Client, token: string)
    ensures NeedAuth(Installed(c, token)) <==> token == ""
    ensures Installed(c, token).token == token && Installed(c, token).transport == BearerTransport(token)
  {
  }

  /** `c.HTTPClient.Do(req)`: one round trip through the client's transport. The client gives
      a request without a header map an empty one before the transport sees it. */
  function Send(c: Client, req: Request, net: Net): (r: Reply)
    ensures req.header.Some? ==> r == RoundTrip(c.transport, req, net.wire)
    ensures req.header.None? ==> r == RoundTrip(c.transport, req.(header := Some(map[])), net.wire)
  {
    var prepared := if req.header.None? then req.(header := Some(map[])) else req;
    RoundTrip(c.transport, prepared, net.wire)
  }

  const AuthFlow := "USER_PASSWORD_AUTH"
  const AuthContentType := "application/x-amz-json-1.1"
  const AuthTarget := "AWSCognitoIdentityProviderService.InitiateAuth"
  const JsonContentType := "application/json"

  /** The `AuthenticateRequest` body: the credentials under `AuthParameters`, the flow name and
      the client identifier. */
  function AuthPayload(username: string, password: string, clientId: string): Json
  {
    JObject([
      ("AuthParameters", JObject([("USERNAME", JString(username)), ("PASSWORD", JString(password))])),
      ("AuthFlow", JString(AuthFlow)),
      ("ClientId", JString(clientId))])
  }

  /** Reads the credentials and client identifier back out of an authentication payload; one
      whose flow is not `USER_PASSWORD_AUTH`, or which lacks a field, is rejected. */
  function ReadAuthPayload(j: Json): Option<(string, string, string)>
  {
    if !j.JObject? then None
    else
      var params, flow, clientId := Member(j.members, "AuthParameters"), Member(j.members, "AuthFlow"),
                                    Member(j.members, "ClientId");
      if !(params.Some? && params.value.JObject? && flow == Some(JString(AuthFlow))
           && clientId.Some? && clientId.value.JString?) then None
      else
        var username, password := Member(params.value.members, "USERNAME"), Member(params.value.members, "PASSWORD");
        if username.Some? && username.value.JString? && password.Some? && password.value.JString?
        then Some((username.value.text, password.value.text, clientId.value.text))
        else None
  }

  /** The payload carries the credentials, the flow and the client identifier given. */
  lemma AuthPayloadRoundTrip(username: string, password: string, clientId: string)
    ensures ReadAuthPayload(AuthPayload(username, password, clientId)) == Some((username, password, clientId))
  {
    var creds := [("USERNAME", JString(username)), ("PASSWORD", JString(password))];
    var members := AuthPayload(username, password, clientId).members;
    assert "USERNAME"[0] != "PASSWORD"[0];
    assert Member(creds[1..], "PASSWORD") == Some(JString(password));
    assert Member(creds, "USERNAME") == Some(JString(username));
    assert Member(creds, "PASSWORD") == Some(JString(password));
    assert "AuthParameters"[4] != "AuthFlow"[4];
    assert "AuthParameters"[0] != "ClientId"[0] && "AuthFlow"[0] != "ClientId"[0];
    assert Member(members[1..][1..], "ClientId") == Some(JString(clientId));
    assert Member(members[1..], "AuthFlow") == Some(JString(AuthFlow));
    assert Member(members, "AuthParameters") == Some(JObject(creds));
    assert Member(members, "AuthFlow") == Some(JString(AuthFlow));
    assert Member(members, "ClientId") == Some(JString(clientId));
  }

  /** The request `Authenticate` sends: a POST to the authentication endpoint whose header map
      is replaced by exactly the content-type and target headers. */
  function AuthRequest(c: Client, username: string, password: string, clientId: string): (r: Request)
    ensures r.verb == "POST" && r.url == c.authURL && r.query == map[]
    ensures r.header.Some? && r.header.value.Keys == {"Content-Type", "X-Amz-Target"}
    ensures r.header.value["Content-Type"] == [AuthContentType] && r.header.value["X-Amz-Target"] == [AuthTarget]
    ensures r.body.JsonBody? && ReadAuthPayload(r.body.doc) == Some((username, password, clientId))
  {
    AuthPayloadRoundTrip(username, password, clientId);
    Request("POST", c.authURL, map[],
            Some(map["Content-Type" := [AuthContentType], "X-Amz-Target" := [AuthTarget]]),
            JsonBody(AuthPayload(username, password, clientId)))
  }

  /** The middlewares installed with a token, in the order they are listed. */
  function BearerMiddlewares(token: string): seq<Middleware>
  {
    [AddHeader(CanonicalKey("authorization"), "Bearer " + token),
     AddHeader(CanonicalKey("content-type"), JsonContentType)]
  }

  /** The transport installed with a token: the two middlewares over the default transport. */
  function BearerTransport(token: string): RoundTripper
  {
    Chain(None, BearerMiddlewares(token))
  }

  /** The client after `token` has been stored and its transport replaced. */
  function Installed(c: Client, token: string): Client
  {
    c.(token := token, transport := BearerTransport(token))
  }

  /** What one call of `Authenticate` leaves behind: the client, the request it sent (if any)
      and the error it returned (`None` for nil). */
  datatype AuthOutcome = AuthOutcome(client: Client, sent: Option<Request>, err: Option<Error>)

  /** The named result after the deferred `Body.Close`: a close error replaces a nil result
      and is only logged when an error is already being returned. */
  function AfterClose(err: Option<Error>, closeError: Option<string>): (r: Option<Error>)
    ensures err.Some? ==> r == err
    ensures err.None? ==> (r.Some? <==> closeError.Some?)
  {
    if err.None? && closeError.Some? then Some(Wrapped("error closing response body", closeError.value))
    else err
  }

  /** The reply to the authentication request. */
  function AuthReply(c: Client, username: string, password: string, clientId: string, net: Net): Reply
  {
    Send(c, AuthRequest(c, username, password, clientId), net)
  }

  /** The token a decoded reply carries, if the round trip and the decoding both succeeded. */
  function DecodedToken(reply: Reply, net: Net): Option<string>
  {
    if reply.Received? && net.decodeAuth(reply.response.body).Success?
    then Some(net.decodeAuth(reply.response.body).value)
    else None
  }

  /** `Authenticate` with the client identifier passed in. */
  function Authenticate(c: Client, username: string, password: string, clientId: string, net: Net): (r: AuthOutcome)
    // With a token present nothing is sent, nothing changes, and nil is returned.
    ensures !NeedAuth(c) ==> r == AuthOutcome(c, None, None)
    // Otherwise the one fixed-shape request goes out, unless its URL is rejected.
    ensures r.sent.Some? <==> NeedAuth(c) && net.urlError(c.authURL).None?
    ensures NeedAuth(c) && r.sent.None? ==> r.client == c && r.err.Some?
    ensures r.sent.Some? ==> r.sent.value == AuthRequest(c, username, password, clientId)
    // The only change ever made is installing the decoded token, whatever the status code was.
    ensures r.client == c || r.client == Installed(c, r.client.token)
    ensures r.sent.Some? ==>
      var t := DecodedToken(AuthReply(c, username, password, clientId, net), net);
      (t.Some? ==> r.client == Installed(c, t.value)) && (t.None? ==> r.client == c && r.err.Some?)
    // A close failure is reported only when nothing failed before it, and then only after
    // the token was installed.
    ensures r.err.Some? && r.err.value.Wrapped? && r.err.value.context == "error closing response body"
      ==> r.sent.Some? && DecodedToken(AuthReply(c, username, password, clientId, net), net).Some?
    // After a successful decode the result is nil unless closing the body fails.
    ensures r.sent.Some? && DecodedToken(AuthReply(c, username, password, clientId, net), net).Some? ==>
      r.err == AfterClose(None, AuthReply(c, username, password, clientId, net).response.closeError)
  {
    if !NeedAuth(c) then AuthOutcome(c, None, None)
    else if net.urlError(c.authURL).Some? then
      AuthOutcome(c, None, Some(Wrapped("error preparing request", net.urlError(c.authURL).value)))
    else
      var req := AuthRequest(c, username, password, clientId);
      match Send(c, req, net)
      case SendFailed(cause) => AuthOutcome(c, Some(req), Some(Wrapped("error authenticating", cause)))
      case Received(res) =>
        match net.decodeAuth(res.body)
        case Failure(cause) =>
          AuthOutcome(c, Some(req), AfterClose(Some(Wrapped("error parsing response", cause)), res.closeError))
        case Success(token) =>
          AuthOutcome(Installed(c, token), Some(req), AfterClose(None, res.closeError))
  }

  /** As written, a response without an `IdToken` (a rejected login decodes this way) is a
      success: nil comes back, yet the client still needs authentication. */
  lemma MissingTokenAccepted(c: Client, username: string, password: string, clientId: string, net: Net,
                              res: Response)
    requires NeedAuth(c) && net.urlError(c.authURL).None?
    requires forall b, req :: net.wire(b, req) == Received(res)
    requires res.closeError.None? && net.decodeAuth(res.body) == Success("")
    ensures Authenticate(c, username, password, clientId, net).err.None?
    ensures NeedAuth(Authenticate(c, username, password, clientId, net).client)
  {
    var req := AuthRequest(c, username, password, clientId);
    assert Send(c, req, net) == Received(res) by {
      assert RoundTrip(c.transport, req, net.wire) == net.wire(BaseOf(c.transport), Delivered(c.transport, req));
    }
  }

  /** The same, for one concrete rejected login: the service answers 400 with an error
      document, which decodes to an empty `IdToken`; `Authenticate` returns nil all the same. */
  lemma RejectedLoginAccepted()
    ensures var c := Client("https://io.example", "https://co.example", "https://auth.example", "",
                            Base(DefaultTransport));
      var res := Response(400, "", Readable("{\"__type\":\"NotAuthorizedException\"}"), None);
      var net := Net((b, req) => Received(res), url => None, (base, elements) => Success(base),
                     body => Success(body), body => Success(""), text => Failure("unused"));
      var r := Authenticate(c, "user", "wrong password", "client", net);
      r.err.None? && r.sent.Some? && NeedAuth(r.client)
  {
    var c := Client("https://io.example", "https://co.example", "https://auth.example", "",
                    Base(DefaultTransport));
    var res := Response(400, "", Readable("{\"__type\":\"NotAuthorizedException\"}"), None);
    var net := Net((b, req) => Received(res), url => None, (base, elements) => Success(base),
                   body => Success(body), body => Success(""), text => Failure("unused"));
    MissingTokenAccepted(c, "user", "wrong password", "client", net, res);
  }

  /** `Authenticate` with an absent token treated as the failure it is: the client is left
      as it was and an error is returned. */
  function AuthenticateRequiringToken(c: Client, username: string, password: string, clientId: string, net: Net): (r: AuthOutcome)
    ensures !NeedAuth(c) ==> r == AuthOutcome(c, None, None)
    ensures r.err.None? ==> !NeedAuth(r.client)
    ensures NeedAuth(r.client) ==> r.client == c
    ensures !NeedAuth(r.client) ==> r.client == c || r.client == Installed(c, r.client.token)
    // A reply without a token is an error that leaves the client as it was ...
    ensures var tokenless := NeedAuth(c) && net.urlError(c.authURL).None?
                             && DecodedToken(AuthReply(c, username, password, clientId, net), net) == Some("");
      tokenless ==> r.err.Some? && r.client == c && r.sent == Some(AuthRequest(c, username, password, clientId))
    // ... and every other call, a real token included, behaves as `Authenticate` does.
    ensures var tokenless := NeedAuth(c) && net.urlError(c.authURL).None?
                             && DecodedToken(AuthReply(c, username, password, clientId, net), net) == Some("");
      !tokenless ==> r == Authenticate(c, username, password, clientId, net)
  {
    var r := Authenticate(c, username, password, clientId, net);
    if r.sent.Some? && NeedAuth(r.client) && r.err.None? then
      AuthOutcome(c, r.sent, Some(Wrapped("error parsing response", "no IdToken in authentication result")))
    else if NeedAuth(r.client) then r.(client := c)
    else r
  }

  /** Once a call has authenticated the client, calling again is a no-op. */
  lemma SecondAuthenticateIsNoop(c: Client, username: string, password: string, clientId: string, net: Net,
                                 username': string, password': string)
    requires AuthenticateRequiringToken(c, username, password, clientId, net).err.None?
    ensures var c' := AuthenticateRequiringToken(c, username, password, clientId, net).client;
      Authenticate(c', username', password', clientId, net) == AuthOutcome(c', None, None)
  {
  }

  /** Every request with a header map leaves an installed client carrying the bearer
      credential and the JSON content type, whatever the caller had set for those two keys;
      all other headers pass through, and the default transport's reply is returned as is. */
  lemma BearerOnWire(token: string, req: Request, wire: (BaseTransport, Request) -> Reply)
    requires req.header.Some?
    ensures var d := Delivered(BearerTransport(token), req);
      && d.header.Some?
      && d == req.(header := d.header)
      && d.header.value.Keys == req.header.value.Keys + {"Authorization", "Content-Type"}
      && d.header.value["Authorization"] == ["Bearer " + token]
      && d.header.value["Content-Type"] == [JsonContentType]
      && (forall k :: k in req.header.value && k != "Authorization" && k != "Content-Type" ==>
            d.header.value[k] == req.header.value[k])
      && RoundTrip(BearerTransport(token), req, wire) == wire(DefaultTransport, d)
  {
    AuthorizationKey();
    ContentTypeKey();
    var ms := BearerMiddlewares(token);
    var h := req.header.value;
    var h1 := SetHeader(h, "Content-Type", JsonContentType);
    var h2 := SetHeader(h1, "Authorization", "Bearer " + token);
    assert SetAll(h, ms[1..]) == h1 by {
      assert ms[1..][1..] == [];
    }
    assert SetAll(h, ms) == h2;
    ChainDelivers(None, ms, req);
    assert Delivered(BearerTransport(token), req) == req.(header := Some(h2));
  }
}
