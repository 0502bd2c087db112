/**
 * The authenticated request dispatcher of the api-client (HttpClient) and the cookie-carrying
 * request to the access endpoint (`sendRequestWithCookie`), which calls back into it.
 *
 * The transport is an oracle: the client holds the list of replies the network will give and
 * each request consumes the first one.  The mutually recursive functions SendSpec, RefreshSpec,
 * PostAccessSpec and SendWithCookieSpec say what a call does to the whole client state; the
 * methods of the class change that state in place and are proved equal to them.
 */
module HttpClientModel {
  import opened Wrappers
  import opened CrudStore
  import opened Axios
  import opened CookieShim

  /** StatusCode.FORBIDDEN, BackendErrorLabel.INVALID_CREDENTIALS and AuthAPI.URL.ACCESS. */
  const Forbidden: int := 403
  const InvalidCredentials: string := "invalid-credentials"
  const AccessUrl: string := "/access"

  /** ContentType.APPLICATION_JSON and ContentType.APPLICATION_PROTOBUF. */
  const ApplicationJson: string := "application/json"
  const ApplicationProtobuf: string := "application/x-protobuf"

  datatype ConnectionState = Undefined | Connected | Disconnected

  /** The access token the token store holds: `{token_type, access_token}`. */
  datatype AccessTokenData = AccessTokenData(tokenType: string, accessToken: string)

  /** Why a call rejects. */
  datatype HttpError =
    | NetworkError(message: string)    // no response reached the client
    | BackendError(data: Json)         // BackendErrorMapper.map(data) of a structured error body
    | RawError(raw: AxiosError)        // any other failure, rejected unchanged
    | LoggedOut                        // Error('Got logged out from backend.') from a failed refresh
    | UriError                         // decodeURIComponent threw on the held token
    | StorageError(cause: StoreError)  // the cookie store rejected
    | HeadersUndefined                 // TypeError: assigning a header of an undefined `headers`
    | TransportExhausted               // the reply oracle has no reply left (model artefact)

  /** The fixed parts of a client: its base URL and the collaborators it calls but whose code is
      not part of the model (the cookie clock, decodeURIComponent, the Set-Cookie parser). */
  datatype Env = Env(
    baseURL: string,
    isExpired: Cookie -> bool,
    decodeUri: string -> Option<string>,
    parseCookie: string -> Option<ParsedCookie>)

  /** Everything a call can change: the connection state and the events emitted for it, the
      held token, the replies still to come, the requests sent so far and the cookie store. */
  datatype ClientState = ClientState(
    connection: ConnectionState,
    events: seq<ConnectionState>,
    token: Option<AccessTokenData>,
    transport: seq<Reply>,
    sent: seq<Config>,
    cookies: StoreState<StoredCookie>)

  /** `updateConnectionState`: a change of state is recorded and announced once; setting the
      current state again does nothing. */
  function UpdateConnection(c: ClientState, state: ConnectionState): (r: ClientState)
    ensures r.connection == state
    ensures c.connection == state ==> r == c
    ensures c.connection != state ==> r.events == c.events + [state]
    ensures r.(events := c.events, connection := c.connection) == c
  {
    if c.connection != state then c.(connection := state, events := c.events + [state]) else c
  }

  /** `createUrl`: the base URL followed by the path. */
  function CreateUrl(baseURL: string, url: string): (r: string)
    ensures |r| == |baseURL| + |url|
    ensures r[..|baseURL|] == baseURL && r[|baseURL|..] == url
  {
    baseURL + url
  }

  /** The credential edit at the start of `_sendRequest`: with a token held, either an
      `Authorization: "<token_type> <access_token>"` header or an `access_token` query parameter;
      every other header and parameter is kept. */
  function AttachCredentials(cfg: Config, token: Option<AccessTokenData>, tokenAsParam: bool): (r: Config)
    ensures token.None? ==> r == cfg
    ensures r.verb == cfg.verb && r.url == cfg.url && r.baseURL == cfg.baseURL
    ensures r.withCredentials == cfg.withCredentials
    ensures tokenAsParam ==> r.headers == cfg.headers
    ensures !tokenAsParam ==> r.params == cfg.params
  {
    if token.None? then cfg
    else if tokenAsParam then cfg.(params := Some(Spread(cfg.params)["access_token" := token.value.accessToken]))
    else cfg.(headers := Some(Spread(cfg.headers)["Authorization" := token.value.tokenType + " " + token.value.accessToken]))
  }

  /** With a token held, the credentials land in the `Authorization` header or the `access_token`
      parameter, and every other header and parameter is kept. */
  lemma AttachCredentialsEffect(cfg: Config, token: Option<AccessTokenData>, tokenAsParam: bool)
    requires token.Some?
    ensures var r := AttachCredentials(cfg, token, tokenAsParam);
            if !tokenAsParam then
              && r.headers.Some?
              && "Authorization" in r.headers.value
              && r.headers.value["Authorization"] == token.value.tokenType + " " + token.value.accessToken
              && (forall h :: h != "Authorization" ==> (h in r.headers.value <==> h in Spread(cfg.headers)))
              && (forall h :: h != "Authorization" && h in r.headers.value ==> r.headers.value[h] == Spread(cfg.headers)[h])
            else
              && r.params.Some?
              && "access_token" in r.params.value
              && r.params.value["access_token"] == token.value.accessToken
              && (forall p :: p != "access_token" ==> (p in r.params.value <==> p in Spread(cfg.params)))
              && (forall p :: p != "access_token" && p in r.params.value ==> r.params.value[p] == Spread(cfg.params)[p])
  {
  }

  /** A network error: no response, and a request object without a single own key. */
  predicate IsNetworkError(e: AxiosError)
  {
    e.response.None? && e.request.RequestObject? && e.request.keyCount == 0
  }

  /** A structured backend error body: `code`, `label` and `message` all truthy. */
  predicate IsBackendError(data: Json)
  {
    Truthy(data) && TruthyField(data, "code") && TruthyField(data, "label") && TruthyField(data, "message")
  }

  /** The message of the NetworkError for the request that failed. */
  function NetworkMessage(cfg: Config): string
  {
    "Cannot do \"" + cfg.verb + "\" request to \"" + cfg.url + "\"."
  }

  /** How `_sendRequest` reads a failure. */
  datatype Classification = Network | Backend(status: int, data: Json) | Raw

  function Classify(e: AxiosError): (k: Classification)
    ensures k.Network? <==> IsNetworkError(e)
    ensures k.Backend? <==> e.response.Some? && IsBackendError(e.response.value.data)
    ensures k.Backend? ==> k == Backend(e.response.value.status, e.response.value.data)
    ensures k.Raw? <==> !IsNetworkError(e) && (e.response.None? || !IsBackendError(e.response.value.data))
  {
    if IsNetworkError(e) then Network
    else if e.response.Some? && IsBackendError(e.response.value.data) then
      Backend(e.response.value.status, e.response.value.data)
    else Raw
  }

  /** The only failure that is answered by a refresh and a re-send. */
  predicate ShouldRefresh(status: int, data: Json, hasToken: bool, firstTry: bool)
  {
    status == Forbidden && Field(data, "label") == Some(Str(InvalidCredentials)) && hasToken && firstTry
  }

  /** The token carried by an access response body, when it has string `token_type` and
      `access_token` fields. */
  function TokenFromBody(data: Json): (t: Option<AccessTokenData>)
    ensures t.Some? ==> (Field(data, "token_type") == Some(Str(t.value.tokenType))
                      && Field(data, "access_token") == Some(Str(t.value.accessToken)))
    ensures (&& Field(data, "token_type").Some? && Field(data, "token_type").value.Str?
             && Field(data, "access_token").Some? && Field(data, "access_token").value.Str?) ==> t.Some?
  {
    match (Field(data, "token_type"), Field(data, "access_token"))
    case (Some(Str(tt)), Some(Str(at))) => Some(AccessTokenData(tt, at))
    case _ => None
  }

  /** The token store after `updateToken(data)`: the body's token, or the old one when the body
      carries none. */
  function InstallToken(held: Option<AccessTokenData>, data: Json): Option<AccessTokenData>
  {
    if TokenFromBody(data).Some? then TokenFromBody(data) else held
  }

  /** The token `refreshAccessToken` hands to `postAccess`: the held one, if its access_token is
      not empty. */
  function ExpiredToken(held: Option<AccessTokenData>): (t: Option<AccessTokenData>)
    ensures t.Some? <==> held.Some? && held.value.accessToken != ""
    ensures t.Some? ==> t == held
  {
    if held.Some? && held.value.accessToken != "" then held else None
  }

  /** The request `postAccess` builds: a credentialled POST to the access URL, with the stale
      token (URI-decoded) as Authorization when there is one.  Decoding may throw. */
  function AccessConfig(expired: Option<AccessTokenData>, decodeUri: string -> Option<string>): (r: Result<Config, HttpError>)
    ensures r.Success? ==> (r.value.verb == "post" && r.value.url == AccessUrl && r.value.withCredentials
                         && r.value.baseURL.None? && r.value.params.None? && r.value.headers.Some?)
    ensures r.Success? ==> ("Authorization" in r.value.headers.value <==> expired.Some? && expired.value.accessToken != "")
    ensures r.Failure? <==> expired.Some? && expired.value.accessToken != "" && decodeUri(expired.value.accessToken).None?
    ensures r.Failure? ==> r.error == UriError
  {
    var base := Config("post", AccessUrl, None, Some(map[]), None, true);
    if expired.Some? && expired.value.accessToken != "" then
      match decodeUri(expired.value.accessToken)
      case None => Failure(UriError)
      case Some(decoded) => Success(base.(headers := Some(map["Authorization" := expired.value.tokenType + " " + decoded])))
    else Success(base)
  }

  /** `_sendRequest(config, tokenAsParam, firstTry)`: the reply, the new client state and the
      config object as the call leaves it. */
  function SendSpec(env: Env, c: ClientState, cfg: Config, tokenAsParam: bool, firstTry: bool)
    : (r: (Result<Response, HttpError>, ClientState, Config))
    decreases |c.transport|, 0
    ensures |r.1.transport| <= |c.transport|
    ensures c.transport != [] ==> |r.1.transport| < |c.transport|
  {
    var cfg1 := AttachCredentials(cfg.(baseURL := Some(env.baseURL)), c.token, tokenAsParam);
    if c.transport == [] then (Failure(TransportExhausted), c, cfg1)
    else
      var c1 := c.(transport := c.transport[1..], sent := c.sent + [cfg1]);
      match c.transport[0]
      case Responded(response) => (Success(response), UpdateConnection(c1, Connected), cfg1)
      case Failed(error) =>
        match Classify(error)
        case Network => (Failure(NetworkError(NetworkMessage(cfg1))), UpdateConnection(c1, Disconnected), cfg1)
        case Backend(status, data) =>
          if ShouldRefresh(status, data, c1.token.Some?, firstTry) then
            var (refreshed, c2) := RefreshSpec(env, c1);
            if refreshed.Failure? then (Failure(refreshed.error), c2, cfg1)
            else SendSpec(env, c2, cfg1, tokenAsParam, true)
          else (Failure(BackendError(data)), c1, cfg1)
        case Raw => (Failure(RawError(error)), c1, cfg1)
  }

  /** `refreshAccessToken()`: ask for a new token, store any cookie it sets, install it. */
  function RefreshSpec(env: Env, c: ClientState): (r: (Result<Json, HttpError>, ClientState))
    decreases |c.transport|, 3
    ensures |r.1.transport| <= |c.transport|
  {
    var (posted, c1) := PostAccessSpec(env, c, ExpiredToken(c.token));
    if posted.Failure? then (Failure(LoggedOut), c1)
    else
      var (saved, cookies) := SaveCookieSpec(c1.cookies, posted.value, env.parseCookie);
      var c2 := c1.(cookies := cookies);
      if saved.Failure? then (Failure(StorageError(saved.error)), c2)
      else (Success(saved.value), c2.(token := InstallToken(c2.token, saved.value)))
  }

  /** `postAccess(expiredAccessToken)`. */
  function PostAccessSpec(env: Env, c: ClientState, expired: Option<AccessTokenData>)
    : (r: (Result<Response, HttpError>, ClientState))
    decreases |c.transport|, 2
    ensures |r.1.transport| <= |c.transport|
  {
    match AccessConfig(expired, env.decodeUri)
    case Failure(e) => (Failure(e), c)
    case Success(cfg) =>
      var (r, c1, _) := SendWithCookieSpec(env, c, cfg);
      (r, c1)
  }

  /** `sendRequestWithCookie(client, config, client's cookie store)`. */
  function SendWithCookieSpec(env: Env, c: ClientState, cfg: Config)
    : (r: (Result<Response, HttpError>, ClientState, Config))
    decreases |c.transport|, 1
    ensures |r.1.transport| <= |c.transport|
  {
    match LoadSpec(c.cookies)
    case Failure(e) => (Failure(StorageError(e)), c, cfg)
    case Success(cookie) => SendSpec(env, c, WithCookie(cfg, cookie, env.isExpired(cookie)), false, true)
  }

  class HttpClient {
    const baseURL: string
    const isExpired: Cookie -> bool
    const decodeUri: string -> Option<string>
    const parseCookie: string -> Option<ParsedCookie>
    const cookieStore: Engine<StoredCookie>

    var connectionState: ConnectionState
    /** The ON_CONNECTION_STATE_CHANGE events emitted, oldest first. */
    ghost var events: seq<ConnectionState>
    /** The access token store's current token. */
    var accessToken: Option<AccessTokenData>
    /** The replies the transport will give, one per request. */
    var transport: seq<Reply>
    /** The request configurations handed to the transport, oldest first. */
    ghost var sent: seq<Config>

    function Environment(): Env
    {
      Env(baseURL, isExpired, decodeUri, parseCookie)
    }

    ghost function State(): ClientState
      reads this, cookieStore
    {
      ClientState(connectionState, events, accessToken, transport, sent, cookieStore.State())
    }

    /** A new client starts in the UNDEFINED connection state. */
    constructor (baseURL: string, accessToken: Option<AccessTokenData>, cookieStore: Engine<StoredCookie>,
                 transport: seq<Reply>, isExpired: Cookie -> bool, decodeUri: string -> Option<string>,
                 parseCookie: string -> Option<ParsedCookie>)
      ensures this.baseURL == baseURL && this.cookieStore == cookieStore
      ensures this.isExpired == isExpired && this.decodeUri == decodeUri && this.parseCookie == parseCookie
      ensures State() == ClientState(Undefined, [], accessToken, transport, [], cookieStore.State())
    {
      this.baseURL := baseURL;
      this.isExpired := isExpired;
      this.decodeUri := decodeUri;
      this.parseCookie := parseCookie;
      this.cookieStore := cookieStore;
      this.connectionState := Undefined;
      this.events := [];
      this.accessToken := accessToken;
      this.transport := transport;
      this.sent := [];
    }

    method UpdateConnectionState(state: ConnectionState)
      modifies this
      ensures State() == UpdateConnection(old(State()), state)
    {
      if connectionState != state {
        connectionState := state;
        events := events + [state];
      }
    }

    /** The first steps of `_sendRequest`: set the base URL and attach the held token. */
    method AttachToConfig(config: RequestConfig, tokenAsParam: bool)
      modifies config
      ensures config.Value() == AttachCredentials(old(config.Value()).(baseURL := Some(baseURL)), accessToken, tokenAsParam)
    {
      config.baseURL := Some(baseURL);
      if accessToken.Some? {
        var token := accessToken.value;
        if tokenAsParam {
          config.params := Some(Spread(config.params)["access_token" := token.accessToken]);
        } else {
          config.headers := Some(Spread(config.headers)["Authorization" := token.tokenType + " " + token.accessToken]);
        }
      }
    }

    method Send(config: RequestConfig, tokenAsParam: bool, firstTry: bool) returns (r: Result<Response, HttpError>)
      modifies this, config, cookieStore
      decreases |transport|, 0
      ensures (r, State(), config.Value()) == SendSpec(Environment(), old(State()), old(config.Value()), tokenAsParam, firstTry)
    {
      AttachToConfig(config, tokenAsParam);
      if transport == [] {
        r := Failure(TransportExhausted);
        return;
      }
      var reply := transport[0];
      transport := transport[1..];
      sent := sent + [config.Value()];
      match reply {
        case Responded(response) =>
          UpdateConnectionState(Connected);
          r := Success(response);
        case Failed(error) =>
          if IsNetworkError(error) {
            var message := NetworkMessage(config.Value());
            UpdateConnectionState(Disconnected);
            r := Failure(NetworkError(message));
            return;
          }
          if error.response.Some? {
            var errorData, errorStatus := error.response.value.data, error.response.value.status;
            if IsBackendError(errorData) {
              if ShouldRefresh(errorStatus, errorData, accessToken.Some?, firstTry) {
                var refreshed := RefreshAccessToken();
                if refreshed.Failure? {
                  r := Failure(refreshed.error);
                  return;
                }
                r := Send(config, tokenAsParam, true);
                return;
              }
              r := Failure(BackendError(errorData));
              return;
            }
          }
          r := Failure(RawError(error));
      }
    }

    method RefreshAccessToken() returns (r: Result<Json, HttpError>)
      modifies this, cookieStore
      decreases |transport|, 3
      ensures (r, State()) == RefreshSpec(Environment(), old(State()))
    {
      var expiredAccessToken := None;
      if accessToken.Some? && accessToken.value.accessToken != "" {
        expiredAccessToken := accessToken;
      }
      var response := PostAccess(expiredAccessToken);
      if response.Failure? {
        r := Failure(LoggedOut);
        return;
      }
      var saved := SaveCookie(response.value, cookieStore, parseCookie);
      if saved.Failure? {
        r := Failure(StorageError(saved.error));
        return;
      }
      accessToken := InstallToken(accessToken, saved.value);
      r := Success(saved.value);
    }

    method PostAccess(expiredAccessToken: Option<AccessTokenData>) returns (r: Result<Response, HttpError>)
      modifies this, cookieStore
      decreases |transport|, 2
      ensures (r, State()) == PostAccessSpec(Environment(), old(State()), expiredAccessToken)
    {
      var config := new RequestConfig(Config("post", AccessUrl, None, Some(map[]), None, true));
      if expiredAccessToken.Some? && expiredAccessToken.value.accessToken != "" {
        var decoded := decodeUri(expiredAccessToken.value.accessToken);
        if decoded.None? {
          r := Failure(UriError);
          return;
        }
        config.headers := Some(config.headers.value["Authorization" := expiredAccessToken.value.tokenType + " " + decoded.value]);
      }
      r := SendRequestWithCookie(this, config, cookieStore);
    }

    /** `sendRequest`: the request queue is not modelled, so this is a first try without delay. */
    method SendRequest(config: RequestConfig, tokenAsParam: bool) returns (r: Result<Response, HttpError>)
      modifies this, config, cookieStore
      ensures (r, State(), config.Value()) == SendSpec(Environment(), old(State()), old(config.Value()), tokenAsParam, true)
    {
      r := Send(config, tokenAsParam, true);
    }

    /** `sendJSON`: mark the body as JSON, then send with the token in a header. */
    method SendJSON(config: RequestConfig) returns (r: Result<Response, HttpError>)
      modifies this, config, cookieStore
      ensures var cfg := old(config.Value());
              var typed := cfg.(headers := Some(Spread(cfg.headers)["Content-Type" := ApplicationJson]));
              (r, State(), config.Value()) == SendSpec(Environment(), old(State()), typed, false, true)
    {
      config.headers := Some(Spread(config.headers)["Content-Type" := ApplicationJson]);
      r := SendRequest(config, false);
    }

    /** `sendProtocolBuffer`: assigns the header on `config.headers` directly, which throws when
        the config has no headers object. */
    method SendProtocolBuffer(config: RequestConfig) returns (r: Result<Response, HttpError>)
      modifies this, config, cookieStore
      ensures var cfg := old(config.Value());
              if cfg.headers.None? then r == Failure(HeadersUndefined) && State() == old(State()) && config.Value() == cfg
              else
                var typed := cfg.(headers := Some(cfg.headers.value["Content-Type" := ApplicationProtobuf]));
                (r, State(), config.Value()) == SendSpec(Environment(), old(State()), typed, false, true)
    {
      if config.headers.None? {
        r := Failure(HeadersUndefined);
        return;
      }
      config.headers := Some(config.headers.value["Content-Type" := ApplicationProtobuf]);
      r := SendRequest(config, false);
    }
  }

  /** `sendRequestWithCookie`: load the renewal cookie, present it when it has not expired, and
      send as a first try with the token in a header.  A failed load rejects. */
  method SendRequestWithCookie(client: HttpClient, config: RequestConfig, engine: Engine<StoredCookie>)
    returns (r: Result<Response, HttpError>)
    requires engine == client.cookieStore
    modifies client, config, engine
    decreases |client.transport|, 1
    ensures (r, client.State(), config.Value()) == SendWithCookieSpec(client.Environment(), old(client.State()), old(config.Value()))
  {
    var loaded := LoadExistingCookie(engine);
    if loaded.Failure? {
      r := Failure(StorageError(loaded.error));
      return;
    }
    var cookie := loaded.value;
    if !client.isExpired(cookie) {
      config.headers := Some(Spread(config.headers)["Cookie" := "zuid=" + cookie.zuid]);
      config.withCredentials := true;
    }
    r := client.Send(config, false, true);
  }
}
