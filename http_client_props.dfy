/**
 * Properties of the dispatcher's specification: what one call does for each kind of reply,
 * the invariant of the connection-state events, and two consequences of the code as written
 * (refresh cycles are not capped, and the decoded stale token never reaches the transport).
 */
module HttpClientProps {
  import opened Wrappers
  import opened CrudStore
  import opened Axios
  import opened CookieShim
  import opened HttpClientModel

  /** The emitted events tell the state's history: none while UNDEFINED, the last one is the
      current state, UNDEFINED is never emitted and no event repeats the one before it. */
  ghost predicate EventsConsistent(c: ClientState)
  {
    && (c.events == [] <==> c.connection == Undefined)
    && (c.events != [] ==> c.events[|c.events| - 1] == c.connection)
    && (forall i :: 0 <= i < |c.events| ==> c.events[i] != Undefined)
    && (forall i :: 0 < i < |c.events| ==> c.events[i - 1] != c.events[i])
  }

  /** A fresh client (UNDEFINED, nothing emitted) is consistent. */
  lemma InitialConsistent(token: Option<AccessTokenData>, transport: seq<Reply>, cookies: StoreState<StoredCookie>)
    ensures EventsConsistent(ClientState(Undefined, [], token, transport, [], cookies))
  {
  }

  lemma UpdateConnectionConsistent(c: ClientState, state: ConnectionState)
    requires EventsConsistent(c) && state != Undefined
    ensures EventsConsistent(UpdateConnection(c, state))
  {
    var r := UpdateConnection(c, state);
    if c.connection != state {
      assert r.events == c.events + [state];
      forall i | 0 < i < |r.events| ensures r.events[i - 1] != r.events[i] {
        if i == |c.events| {
          assert c.events != [] ==> c.events[i - 1] == c.connection;
        } else {
          assert r.events[i - 1] == c.events[i - 1] && r.events[i] == c.events[i];
        }
      }
    }
  }

  /** Setting the same state twice is the same as setting it once. */
  lemma UpdateConnectionIdempotent(c: ClientState, state: ConnectionState)
    ensures UpdateConnection(UpdateConnection(c, state), state) == UpdateConnection(c, state)
  {
  }

  /** `c'` is a later state of the same client: the sent requests and the events only grow, the
      replies only get used up, the failing tables stay, and consistency of the events is kept. */
  ghost predicate Follows(c: ClientState, c': ClientState)
  {
    && |c.sent| <= |c'.sent| && c'.sent[..|c.sent|] == c.sent
    && |c.events| <= |c'.events| && c'.events[..|c.events|] == c.events
    && |c'.transport| <= |c.transport| && c'.transport == c.transport[|c.transport| - |c'.transport|..]
    && c'.cookies.readFaulty == c.cookies.readFaulty && c'.cookies.writeFaulty == c.cookies.writeFaulty
    && (EventsConsistent(c) ==> EventsConsistent(c'))
  }

  lemma FollowsTrans(a: ClientState, b: ClientState, d: ClientState)
    requires Follows(a, b) && Follows(b, d)
    ensures Follows(a, d)
  {
    assert d.sent[..|a.sent|] == d.sent[..|b.sent|][..|a.sent|];
    assert d.events[..|a.events|] == d.events[..|b.events|][..|a.events|];
  }

  lemma SaveCookieFaulty(s: StoreState<StoredCookie>, response: Response, parse: string -> Option<ParsedCookie>)
    ensures SaveCookieSpec(s, response, parse).1.readFaulty == s.readFaulty
    ensures SaveCookieSpec(s, response, parse).1.writeFaulty == s.writeFaulty
  {
    SaveAllEffect(s, ParsedCookies(response.setCookie, parse));
  }

  lemma {:induction false} SendFollows(env: Env, c: ClientState, cfg: Config, tokenAsParam: bool, firstTry: bool)
    decreases |c.transport|, 0
    ensures Follows(c, SendSpec(env, c, cfg, tokenAsParam, firstTry).1)
  {
    var cfg1 := AttachCredentials(cfg.(baseURL := Some(env.baseURL)), c.token, tokenAsParam);
    if c.transport != [] {
      var c1 := c.(transport := c.transport[1..], sent := c.sent + [cfg1]);
      assert Follows(c, c1) by {
        assert c1.sent[..|c.sent|] == c.sent;
        assert c1.events[..|c.events|] == c.events;
      }
      match c.transport[0]
      case Responded(response) =>
        UpdateConnectionFollows(c1, Connected);
        FollowsTrans(c, c1, UpdateConnection(c1, Connected));
      case Failed(error) =>
        match Classify(error)
        case Network =>
          UpdateConnectionFollows(c1, Disconnected);
          FollowsTrans(c, c1, UpdateConnection(c1, Disconnected));
        case Backend(status, data) =>
          if ShouldRefresh(status, data, c1.token.Some?, firstTry) {
            var (refreshed, c2) := RefreshSpec(env, c1);
            RefreshFollows(env, c1);
            FollowsTrans(c, c1, c2);
            if refreshed.Success? {
              SendFollows(env, c2, cfg1, tokenAsParam, true);
              FollowsTrans(c, c2, SendSpec(env, c2, cfg1, tokenAsParam, true).1);
            }
          }
        case Raw =>
    } else {
      assert c.sent[..|c.sent|] == c.sent && c.events[..|c.events|] == c.events;
    }
  }

  lemma UpdateConnectionFollows(c: ClientState, state: ConnectionState)
    requires state != Undefined
    ensures Follows(c, UpdateConnection(c, state))
  {
    var r := UpdateConnection(c, state);
    assert r.sent[..|c.sent|] == c.sent && r.events[..|c.events|] == c.events;
    assert r.transport == c.transport[0..];
    if EventsConsistent(c) {
      UpdateConnectionConsistent(c, state);
    }
  }

  lemma {:induction false} RefreshFollows(env: Env, c: ClientState)
    decreases |c.transport|, 3
    ensures Follows(c, RefreshSpec(env, c).1)
  {
    var (posted, c1) := PostAccessSpec(env, c, ExpiredToken(c.token));
    PostAccessFollows(env, c, ExpiredToken(c.token));
    if posted.Success? {
      AfterAccessFollows(env, c1, posted.value);
      FollowsTrans(c, c1, RefreshSpec(env, c).1);
    }
  }

  /** Storing the access reply's cookie and installing its token only touch the cookies and the
      token. */
  lemma AfterAccessFollows(env: Env, c1: ClientState, response: Response)
    ensures var (saved, cookies) := SaveCookieSpec(c1.cookies, response, env.parseCookie);
            var c2 := c1.(cookies := cookies);
            && Follows(c1, c2)
            && (saved.Success? ==> Follows(c1, c2.(token := InstallToken(c2.token, saved.value))))
  {
    var (saved, cookies) := SaveCookieSpec(c1.cookies, response, env.parseCookie);
    SaveCookieFaulty(c1.cookies, response, env.parseCookie);
    assert c1.sent[..|c1.sent|] == c1.sent && c1.events[..|c1.events|] == c1.events;
    assert c1.transport == c1.transport[0..];
  }

  lemma {:induction false} PostAccessFollows(env: Env, c: ClientState, expired: Option<AccessTokenData>)
    decreases |c.transport|, 2
    ensures Follows(c, PostAccessSpec(env, c, expired).1)
  {
    match AccessConfig(expired, env.decodeUri)
    case Failure(e) =>
      assert c.sent[..|c.sent|] == c.sent && c.events[..|c.events|] == c.events;
    case Success(cfg) =>
      SendWithCookieFollows(env, c, cfg);
  }

  lemma {:induction false} SendWithCookieFollows(env: Env, c: ClientState, cfg: Config)
    decreases |c.transport|, 1
    ensures Follows(c, SendWithCookieSpec(env, c, cfg).1)
  {
    match LoadSpec(c.cookies)
    case Failure(e) =>
      assert c.sent[..|c.sent|] == c.sent && c.events[..|c.events|] == c.events;
    case Success(cookie) =>
      SendFollows(env, c, WithCookie(cfg, cookie, env.isExpired(cookie)), false, true);
  }

  /** A reply arrives: the call resolves with it, the state becomes CONNECTED, and only this one
      request was sent, carrying the credentials. */
  lemma SendSucceeds(env: Env, c: ClientState, cfg: Config, tokenAsParam: bool, firstTry: bool, response: Response)
    requires c.transport != [] && c.transport[0] == Responded(response)
    ensures var (r, c', cfg') := SendSpec(env, c, cfg, tokenAsParam, firstTry);
            && r == Success(response)
            && c'.connection == Connected
            && cfg' == AttachCredentials(cfg.(baseURL := Some(env.baseURL)), c.token, tokenAsParam)
            && c'.sent == c.sent + [cfg']
            && c'.transport == c.transport[1..]
            && c'.token == c.token && c'.cookies == c.cookies
  {
  }

  /** A network error: the call rejects with a NetworkError naming the method and URL, the state
      becomes DISCONNECTED, and nothing else is tried. */
  lemma SendNetworkFailure(env: Env, c: ClientState, cfg: Config, tokenAsParam: bool, firstTry: bool, e: AxiosError)
    requires c.transport != [] && c.transport[0] == Failed(e) && IsNetworkError(e)
    ensures var (r, c', cfg') := SendSpec(env, c, cfg, tokenAsParam, firstTry);
            && r == Failure(NetworkError("Cannot do \"" + cfg.verb + "\" request to \"" + cfg.url + "\"."))
            && c'.connection == Disconnected
            && c'.sent == c.sent + [cfg']
            && c'.transport == c.transport[1..]
            && c'.token == c.token && c'.cookies == c.cookies
  {
  }

  /** Any failure other than a network error and the refresh case rejects at once — as the
      mapped backend error when the body has a truthy code, label and message, and unchanged
      otherwise — without touching the connection state, the token or the cookie. */
  lemma SendOtherFailure(env: Env, c: ClientState, cfg: Config, tokenAsParam: bool, firstTry: bool, e: AxiosError)
    requires c.transport != [] && c.transport[0] == Failed(e) && !IsNetworkError(e)
    requires !(e.response.Some? && ShouldRefresh(e.response.value.status, e.response.value.data, c.token.Some?, firstTry))
    ensures var (r, c', cfg') := SendSpec(env, c, cfg, tokenAsParam, firstTry);
            && r == (if e.response.Some? && IsBackendError(e.response.value.data)
                     then Failure(BackendError(e.response.value.data)) else Failure(RawError(e)))
            && c' == c.(transport := c.transport[1..], sent := c.sent + [cfg'])
  {
  }

  /** The refresh path is taken exactly for a FORBIDDEN backend error labelled
      invalid-credentials, with a token held, on a first try; its failure is the call's failure. */
  lemma SendRefreshes(env: Env, c: ClientState, cfg: Config, tokenAsParam: bool, firstTry: bool, e: AxiosError)
    requires c.transport != [] && c.transport[0] == Failed(e)
    requires e.response.Some? && IsBackendError(e.response.value.data)
    requires ShouldRefresh(e.response.value.status, e.response.value.data, c.token.Some?, firstTry)
    ensures var cfg1 := AttachCredentials(cfg.(baseURL := Some(env.baseURL)), c.token, tokenAsParam);
            var c1 := c.(transport := c.transport[1..], sent := c.sent + [cfg1]);
            var (refreshed, c2) := RefreshSpec(env, c1);
            SendSpec(env, c, cfg, tokenAsParam, firstTry) ==
              if refreshed.Failure? then (Failure(refreshed.error), c2, cfg1)
              else SendSpec(env, c2, cfg1, tokenAsParam, true)
  {
    assert !IsNetworkError(e);
  }

  /** A failed access request always surfaces as "Got logged out from backend.", whatever the
      reason, and nothing is retried. */
  lemma RefreshFailureLogsOut(env: Env, c: ClientState)
    requires PostAccessSpec(env, c, ExpiredToken(c.token)).0.Failure?
    ensures RefreshSpec(env, c) == (Failure(LoggedOut), PostAccessSpec(env, c, ExpiredToken(c.token)).1)
  {
  }

  /** The body of an access response that grants token `t` and sets no cookie. */
  function GrantReply(t: AccessTokenData): Reply
  {
    Responded(Response(200, Obj(map["token_type" := Str(t.tokenType), "access_token" := Str(t.accessToken)]), NoSetCookie))
  }

  /** A FORBIDDEN reply whose body is an invalid-credentials backend error. */
  function InvalidCredentialsReply(): Reply
  {
    Failed(AxiosError(
      Some(Response(Forbidden, Obj(map["code" := Num(403), "label" := Str(InvalidCredentials), "message" := Str("Invalid token")]), NoSetCookie)),
      RequestObject(1)))
  }

  /** `n` rounds of: the request is refused for invalid credentials, the refresh grants `t`. */
  function Cycles(n: nat, t: AccessTokenData): seq<Reply>
  {
    if n == 0 then [] else [InvalidCredentialsReply(), GrantReply(t)] + Cycles(n - 1, t)
  }

  lemma GrantReplyToken(t: AccessTokenData)
    ensures TokenFromBody(GrantReply(t).response.data) == Some(t)
  {
    var data := GrantReply(t).response.data;
    assert Field(data, "token_type") == Some(Str(t.tokenType));
    assert Field(data, "access_token") == Some(Str(t.accessToken));
  }

  /** The invalid-credentials reply is a backend error that asks for a refresh on a first try. */
  lemma InvalidCredentialsRefreshes()
    ensures var e := InvalidCredentialsReply().error;
            && e.response.Some? && IsBackendError(e.response.value.data)
            && ShouldRefresh(e.response.value.status, e.response.value.data, true, true)
  {
    var data := InvalidCredentialsReply().error.response.value.data;
    assert Field(data, "code") == Some(Num(403));
    assert Field(data, "label") == Some(Str(InvalidCredentials));
    assert Field(data, "message") == Some(Str("Invalid token"));
  }

  /** With reads of the cookie table working, the cookie slot always loads. */
  lemma LoadSucceeds(s: StoreState<StoredCookie>)
    requires AuthTableName !in s.readFaulty
    ensures LoadSpec(s).Success?
  {
  }

  /**
   * A refresh whose access request is answered with a body granting `t`: whatever token was
   * held before, `t` replaces it, unless storing a cookie the reply sets fails.  In that case the
   * refresh rejects with the store's error and the token and the cookie store stay as they were.
   * A successful refresh leaves the slot holding the last cookie the reply set, or untouched when
   * it set none that parsed.  Either way exactly the access request was sent.
   */
  lemma RefreshGrants(env: Env, c: ClientState, t: AccessTokenData, grant: Response)
    requires ExpiredToken(c.token).Some? ==> env.decodeUri(ExpiredToken(c.token).value.accessToken).Some?
    requires AuthTableName !in c.cookies.readFaulty
    requires TokenFromBody(grant.data) == Some(t)
    requires c.transport != [] && c.transport[0] == Responded(grant)
    ensures var (refreshed, c2) := RefreshSpec(env, c);
            var last := LastParsed(ParsedCookies(grant.setCookie, env.parseCookie));
            && c2.transport == c.transport[1..]
            && |c2.sent| == |c.sent| + 1
            && (refreshed.Success? <==> last.None? || AuthTableName !in c.cookies.writeFaulty)
            && (refreshed.Success? ==> refreshed.value == grant.data && c2.token == Some(t))
            && (refreshed.Failure? ==>
                  refreshed.error == StorageError(IoFailure) && c2.token == c.token && c2.cookies == c.cookies)
            && (last.None? ==> c2.cookies == c.cookies)
            && (refreshed.Success? && last.Some? ==> LoadSpec(c2.cookies) == Success(ToCookie(last.value)))
  {
    var expired := ExpiredToken(c.token);
    var cfgA := AccessConfig(expired, env.decodeUri).value;
    LoadSucceeds(c.cookies);
    var cookie := LoadSpec(c.cookies).value;
    var cfgB := WithCookie(cfgA, cookie, env.isExpired(cookie));
    SendSucceeds(env, c, cfgB, false, true, grant);
    assert SendWithCookieSpec(env, c, cfgA) == SendSpec(env, c, cfgB, false, true);
    var (posted, c1) := PostAccessSpec(env, c, expired);
    assert posted == Success(grant) && c1.cookies == c.cookies && c1.token == c.token;
    SaveCookieThenLoad(c1.cookies, grant, env.parseCookie);
  }

  /** After a successful refresh the request goes out again, as a first try once more. */
  lemma RetryAfterRefresh(env: Env, c: ClientState, cfg: Config, tokenAsParam: bool, e: AxiosError)
    requires c.transport != [] && c.transport[0] == Failed(e)
    requires e.response.Some? && IsBackendError(e.response.value.data)
    requires ShouldRefresh(e.response.value.status, e.response.value.data, c.token.Some?, true)
    requires var cfg1 := AttachCredentials(cfg.(baseURL := Some(env.baseURL)), c.token, tokenAsParam);
            var c1 := c.(transport := c.transport[1..], sent := c.sent + [cfg1]);
            RefreshSpec(env, c1).0.Success?
    ensures var cfg1 := AttachCredentials(cfg.(baseURL := Some(env.baseURL)), c.token, tokenAsParam);
            var c1 := c.(transport := c.transport[1..], sent := c.sent + [cfg1]);
            var c2 := RefreshSpec(env, c1).1;
            SendSpec(env, c, cfg, tokenAsParam, true) == SendSpec(env, c2, cfg1, tokenAsParam, true)
  {
    SendRefreshes(env, c, cfg, tokenAsParam, true, e);
  }

  /** One refresh cycle: a refused first try followed by a granting refresh comes down to a
      first try of the same request, with `t` still held, the cookie store unchanged, two more
      requests sent and two replies used. */
  lemma CycleStep(env: Env, c: ClientState, cfg: Config, tokenAsParam: bool, t: AccessTokenData,
                  e: AxiosError, grant: Response, rest: seq<Reply>)
    requires c.token == Some(t) && t.accessToken != "" && env.decodeUri(t.accessToken).Some?
    requires AuthTableName !in c.cookies.readFaulty
    requires e.response.Some? && IsBackendError(e.response.value.data)
    requires ShouldRefresh(e.response.value.status, e.response.value.data, true, true)
    requires TokenFromBody(grant.data) == Some(t) && grant.setCookie == NoSetCookie
    requires c.transport != [] && c.transport[0] == Failed(e) && c.transport[1..] == [Responded(grant)] + rest
    ensures var cfg1 := AttachCredentials(cfg.(baseURL := Some(env.baseURL)), c.token, tokenAsParam);
            var c1 := c.(transport := c.transport[1..], sent := c.sent + [cfg1]);
            var c2 := RefreshSpec(env, c1).1;
            && SendSpec(env, c, cfg, tokenAsParam, true) == SendSpec(env, c2, cfg1, tokenAsParam, true)
            && c2.token == Some(t) && c2.cookies == c.cookies
            && c2.transport == rest && |c2.sent| == |c.sent| + 2
  {
    var cfg1 := AttachCredentials(cfg.(baseURL := Some(env.baseURL)), c.token, tokenAsParam);
    var c1 := c.(transport := c.transport[1..], sent := c.sent + [cfg1]);
    RefreshGrants(env, c1, t, grant);
    RetryAfterRefresh(env, c, cfg, tokenAsParam, e);
  }

  /**
   * The re-send after a refresh is again a first try, so nothing caps the number of refresh
   * cycles: a request refused n times for invalid credentials, each time after a successful
   * refresh, goes out n + 1 times with n access requests between them and then succeeds.
   */
  lemma {:induction false} RefreshCyclesUnbounded(env: Env, c: ClientState, cfg: Config, tokenAsParam: bool,
                                                  n: nat, t: AccessTokenData, final: Response)
    requires c.token == Some(t) && t.accessToken != "" && env.decodeUri(t.accessToken).Some?
    requires AuthTableName !in c.cookies.readFaulty
    requires c.transport == Cycles(n, t) + [Responded(final)]
    ensures var (r, c', _) := SendSpec(env, c, cfg, tokenAsParam, true);
            && r == Success(final)
            && |c'.sent| == |c.sent| + 2 * n + 1
            && c'.transport == []
            && c'.token == Some(t)
    decreases n
  {
    if n == 0 {
      SendSucceeds(env, c, cfg, tokenAsParam, true, final);
    } else {
      var rest := Cycles(n - 1, t) + [Responded(final)];
      var e, grant := InvalidCredentialsReply().error, GrantReply(t).response;
      assert c.transport == [Failed(e), Responded(grant)] + rest;
      InvalidCredentialsRefreshes();
      GrantReplyToken(t);
      CycleStep(env, c, cfg, tokenAsParam, t, e, grant, rest);
      var cfg1 := AttachCredentials(cfg.(baseURL := Some(env.baseURL)), c.token, tokenAsParam);
      var c1 := c.(transport := c.transport[1..], sent := c.sent + [cfg1]);
      var c2 := RefreshSpec(env, c1).1;
      RefreshCyclesUnbounded(env, c2, cfg1, tokenAsParam, n - 1, t, final);
    }
  }

  /** An access request that is answered with a grant setting no cookie completes the refresh:
      the granted token is installed and nothing else changes. */
  lemma RefreshAfterGrant(env: Env, c: ClientState, t: AccessTokenData, grant: Response)
    requires TokenFromBody(grant.data) == Some(t) && grant.setCookie == NoSetCookie
    requires PostAccessSpec(env, c, ExpiredToken(c.token)).0 == Success(grant)
    ensures var c1 := PostAccessSpec(env, c, ExpiredToken(c.token)).1;
            RefreshSpec(env, c) == (Success(grant.data), c1.(token := Some(t)))
  {
    var c1 := PostAccessSpec(env, c, ExpiredToken(c.token)).1;
    SaveCookieThenLoad(c1.cookies, grant, env.parseCookie);
  }

  /** The access request goes through `_sendRequest` as a first try too: refused for invalid
      credentials while a token is held, it starts a refresh of its own, and is then sent again. */
  lemma AccessRefusedRefreshes(env: Env, c: ClientState, t: AccessTokenData, rest: seq<Reply>)
    requires c.token == Some(t) && t.accessToken != "" && env.decodeUri(t.accessToken).Some?
    requires AuthTableName !in c.cookies.readFaulty
    requires c.transport == [InvalidCredentialsReply(), GrantReply(t), GrantReply(t)] + rest
    ensures var (posted, c') := PostAccessSpec(env, c, ExpiredToken(c.token));
            && posted == Success(GrantReply(t).response)
            && c'.token == Some(t) && c'.cookies == c.cookies
            && c'.transport == rest && |c'.sent| == |c.sent| + 3
  {
    var e, grant := InvalidCredentialsReply().error, GrantReply(t).response;
    InvalidCredentialsRefreshes();
    GrantReplyToken(t);
    var cfgA := AccessConfig(Some(t), env.decodeUri).value;
    LoadSucceeds(c.cookies);
    var cookie := LoadSpec(c.cookies).value;
    var cfgB := WithCookie(cfgA, cookie, env.isExpired(cookie));
    assert c.transport[1..] == [Responded(grant)] + ([Responded(grant)] + rest);
    CycleStep(env, c, cfgB, false, t, e, grant, [Responded(grant)] + rest);
    var cfgB1 := AttachCredentials(cfgB.(baseURL := Some(env.baseURL)), c.token, false);
    var c1 := c.(transport := c.transport[1..], sent := c.sent + [cfgB1]);
    var c2 := RefreshSpec(env, c1).1;
    SendSucceeds(env, c2, cfgB1, false, true, grant);
    assert PostAccessSpec(env, c, ExpiredToken(c.token)) == (SendSpec(env, c, cfgB, false, true).0, SendSpec(env, c, cfgB, false, true).1);
  }

  /** A refresh inside a refresh: a request refused, whose access request is refused in turn,
      then granted twice, goes out again and succeeds after five requests in all. */
  lemma NestedRefresh(env: Env, c: ClientState, cfg: Config, tokenAsParam: bool, t: AccessTokenData, final: Response)
    requires c.token == Some(t) && t.accessToken != "" && env.decodeUri(t.accessToken).Some?
    requires AuthTableName !in c.cookies.readFaulty
    requires c.transport == [InvalidCredentialsReply(), InvalidCredentialsReply(), GrantReply(t), GrantReply(t), Responded(final)]
    ensures var (r, c', _) := SendSpec(env, c, cfg, tokenAsParam, true);
            && r == Success(final)
            && |c'.sent| == |c.sent| + 5
            && c'.transport == []
            && c'.token == Some(t)
            && c'.cookies == c.cookies
  {
    var e, grant := InvalidCredentialsReply().error, GrantReply(t).response;
    InvalidCredentialsRefreshes();
    GrantReplyToken(t);
    var cfg1 := AttachCredentials(cfg.(baseURL := Some(env.baseURL)), c.token, tokenAsParam);
    var c1 := c.(transport := c.transport[1..], sent := c.sent + [cfg1]);
    SendRefreshes(env, c, cfg, tokenAsParam, true, e);
    assert c1.transport == [InvalidCredentialsReply(), GrantReply(t), GrantReply(t)] + [Responded(final)];
    AccessRefusedRefreshes(env, c1, t, [Responded(final)]);
    RefreshAfterGrant(env, c1, t, grant);
    var c2 := RefreshSpec(env, c1).1;
    SendSucceeds(env, c2, cfg1, tokenAsParam, true, final);
  }

  /** The first request a call hands to the transport is the config with the base URL and the
      credentials attached; whatever follows comes after it. */
  lemma SendSentFirst(env: Env, c: ClientState, cfg: Config, tokenAsParam: bool, firstTry: bool)
    requires c.transport != []
    ensures var c' := SendSpec(env, c, cfg, tokenAsParam, firstTry).1;
            && |c'.sent| > |c.sent|
            && c'.sent[|c.sent|] == AttachCredentials(cfg.(baseURL := Some(env.baseURL)), c.token, tokenAsParam)
  {
    var cfg1 := AttachCredentials(cfg.(baseURL := Some(env.baseURL)), c.token, tokenAsParam);
    var c1 := c.(transport := c.transport[1..], sent := c.sent + [cfg1]);
    var c' := SendSpec(env, c, cfg, tokenAsParam, firstTry).1;
    if c.transport[0].Failed? && Classify(c.transport[0].error).Backend? {
      var k := Classify(c.transport[0].error);
      if ShouldRefresh(k.status, k.data, c1.token.Some?, firstTry) {
        var (refreshed, c2) := RefreshSpec(env, c1);
        RefreshFollows(env, c1);
        if refreshed.Success? {
          SendFollows(env, c2, cfg1, tokenAsParam, true);
          FollowsTrans(c1, c2, c');
        }
        assert c'.sent[..|c1.sent|] == c1.sent;
        assert c'.sent[|c.sent|] == c'.sent[..|c1.sent|][|c.sent|];
      }
    }
  }

  /** What reaches the transport for a refresh: a credentialled POST to the access URL that
      carries the held token in its raw form — the URI-decoded header `postAccess` builds is
      overwritten by `_sendRequest` — and the renewal cookie exactly when it has not expired. */
  lemma PostAccessSendsRawToken(env: Env, c: ClientState, t: AccessTokenData)
    requires c.token == Some(t) && t.accessToken != "" && env.decodeUri(t.accessToken).Some?
    requires LoadSpec(c.cookies).Success? && c.transport != []
    ensures var c' := PostAccessSpec(env, c, ExpiredToken(c.token)).1;
            var cookie := LoadSpec(c.cookies).value;
            && |c'.sent| > |c.sent|
            && var req := c'.sent[|c.sent|];
            && req.verb == "post" && req.url == AccessUrl && req.baseURL == Some(env.baseURL)
            && req.withCredentials
            && req.headers.Some?
            && "Authorization" in req.headers.value
            && req.headers.value["Authorization"] == t.tokenType + " " + t.accessToken
            && ("Cookie" in req.headers.value <==> !env.isExpired(cookie))
            && (!env.isExpired(cookie) ==> req.headers.value["Cookie"] == "zuid=" + cookie.zuid)
  {
    assert ExpiredToken(c.token) == Some(t);
    var cfgA := AccessConfig(Some(t), env.decodeUri).value;
    var cookie := LoadSpec(c.cookies).value;
    var cfgB := WithCookie(cfgA, cookie, env.isExpired(cookie));
    assert PostAccessSpec(env, c, Some(t)).1 == SendSpec(env, c, cfgB, false, true).1;
    SendSentFirst(env, c, cfgB, false, true);
    var req := AttachCredentials(cfgB.(baseURL := Some(env.baseURL)), c.token, false);
    assert "Cookie" !in Spread(cfgA.headers);
  }
}
