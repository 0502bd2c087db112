/**
 * Persistence of the renewal cookie (`zuid`) in the storage engine, and the request edit that
 * presents it to the access endpoint.  The cookie lives in one fixed slot: the record
 * (AuthTableName, AuthCookieKey), stored as `{expiration, zuid}`.
 */
module CookieShim {
  import opened Wrappers
  import opened CrudStore
  import opened Axios

  /** The fixed slot of the renewal cookie; the values are defined by the auth module. */
  const AuthTableName: string := "authentication"
  const AuthCookieKey: string := "cookie"

  /** The auth module's `Cookie(zuid, expiration)`. */
  datatype Cookie = Cookie(zuid: string, expiration: string)

  /** What the engine holds in the cookie slot: the persisted object, or content of another type. */
  datatype StoredCookie = PersistedCookie(expiration: string, zuid: string) | NotAnObject

  /** A cookie as the `Set-Cookie` parser returns it; `expires` is its `expires.toString()`. */
  datatype ParsedCookie = ParsedCookie(value: string, expires: string)

  /** The cookie reported when none is stored. */
  const EmptyCookie: Cookie := Cookie("", "0")

  function Persisted(c: Cookie): StoredCookie
  {
    PersistedCookie(c.expiration, c.zuid)
  }

  /** Turns the outcome of reading the slot into the loaded cookie: a missing record is the
      empty cookie, any other read error is rethrown. */
  function CookieFromRead(r: Result<StoredCookie, StoreError>): (c: Result<Cookie, StoreError>)
    ensures c.Failure? <==> r.Failure? && r.error != RecordNotFound
    ensures c.Failure? ==> c.error == r.error
    ensures r == Failure(RecordNotFound) ==> c == Success(EmptyCookie)
    ensures r.Success? && r.value.PersistedCookie? ==> c == Success(Cookie(r.value.zuid, r.value.expiration))
    ensures r == Success(NotAnObject) ==> c == Success(EmptyCookie)
  {
    match r
    case Failure(RecordNotFound) => Success(EmptyCookie)
    case Failure(e) => Failure(e)
    case Success(PersistedCookie(expiration, zuid)) => Success(Cookie(zuid, expiration))
    case Success(NotAnObject) => Success(EmptyCookie)
  }

  /** The cookie that `loadExistingCookie` yields from a store. */
  function LoadSpec(s: StoreState<StoredCookie>): Result<Cookie, StoreError>
  {
    CookieFromRead(ReadSpec(s, AuthTableName, AuthCookieKey))
  }

  method LoadExistingCookie(engine: Engine<StoredCookie>) returns (r: Result<Cookie, StoreError>)
    ensures r == LoadSpec(engine.State())
    ensures AuthTableName !in engine.readFaulty && (AuthTableName, AuthCookieKey) !in engine.records ==>
              r == Success(EmptyCookie)
  {
    var read := engine.Read(AuthTableName, AuthCookieKey);
    r := CookieFromRead(read);
  }

  /** `setInternalCookie`: create the record, and when it already exists update it instead.
      Whatever the slot held, the outcome is a plain overwrite unless the table fails. */
  function SetInternalSpec(s: StoreState<StoredCookie>, c: Cookie): (r: (Outcome<StoreError>, StoreState<StoredCookie>))
    ensures r.0 == (if AuthTableName in s.writeFaulty then Fail(IoFailure) else Pass)
    ensures r.1 == (if AuthTableName in s.writeFaulty then s else Put(s, AuthTableName, AuthCookieKey, Persisted(c)))
  {
    var (created, s1) := CreateSpec(s, AuthTableName, AuthCookieKey, Persisted(c));
    if created == Fail(RecordAlreadyExists) then UpdateSpec(s1, AuthTableName, AuthCookieKey, Persisted(c))
    else (created, s1)
  }

  method SetInternalCookie(cookie: Cookie, engine: Engine<StoredCookie>) returns (r: Outcome<StoreError>)
    modifies engine
    ensures (r, engine.State()) == SetInternalSpec(old(engine.State()), cookie)
  {
    var entity := Persisted(cookie);
    r := engine.Create(AuthTableName, AuthCookieKey, entity);
    if r == Fail(RecordAlreadyExists) {
      r := engine.Update(AuthTableName, AuthCookieKey, entity);
    }
  }

  /** Save-then-load: after a successful `setInternalCookie(c)` the slot loads as `c`, unless
      reads of the table fail. */
  lemma LoadAfterSetInternal(s: StoreState<StoredCookie>, c: Cookie)
    requires SetInternalSpec(s, c).0 == Pass
    ensures LoadSpec(SetInternalSpec(s, c).1) == if AuthTableName in s.readFaulty then Failure(IoFailure) else Success(c)
  {
    PutReadBack(s, AuthTableName, AuthCookieKey, Persisted(c), AuthTableName, AuthCookieKey);
  }

  /** The parse result of each `Set-Cookie` line of a response; an empty single header is
      falsy and yields nothing, an array yields one entry per line. */
  function ParsedCookies(h: SetCookieHeader, parse: string -> Option<ParsedCookie>): (ps: seq<Option<ParsedCookie>>)
    ensures h.CookieList? ==> |ps| == |h.lines| && forall i :: 0 <= i < |ps| ==> ps[i] == parse(h.lines[i])
    ensures h.SingleCookie? && h.line != "" ==> ps == [parse(h.line)]
    ensures h.NoSetCookie? || h == SingleCookie("") ==> ps == []
  {
    match h
    case NoSetCookie => []
    case SingleCookie(line) => if line == "" then [] else [parse(line)]
    case CookieList(lines) => seq(|lines|, i requires 0 <= i < |lines| => parse(lines[i]))
  }

  function ToCookie(p: ParsedCookie): Cookie
  {
    Cookie(p.value, p.expires)
  }

  /** Saves the parsed cookies one after the other, skipping the unparsable ones and stopping at
      the first failing save. */
  function SaveAllSpec(s: StoreState<StoredCookie>, ps: seq<Option<ParsedCookie>>): (Outcome<StoreError>, StoreState<StoredCookie>)
    decreases |ps|
  {
    if ps == [] then (Pass, s)
    else if ps[0].None? then SaveAllSpec(s, ps[1..])
    else
      var (r, s1) := SetInternalSpec(s, ToCookie(ps[0].value));
      if r.Fail? then (r, s1) else SaveAllSpec(s1, ps[1..])
  }

  /** `saveCookie`: persist every cookie the response sets, then hand back the response body. */
  function SaveCookieSpec(s: StoreState<StoredCookie>, response: Response, parse: string -> Option<ParsedCookie>)
    : (Result<Json, StoreError>, StoreState<StoredCookie>)
  {
    var (r, s1) := SaveAllSpec(s, ParsedCookies(response.setCookie, parse));
    if r.Fail? then (Failure(r.error), s1) else (Success(response.data), s1)
  }

  method SaveCookie(response: Response, engine: Engine<StoredCookie>, parse: string -> Option<ParsedCookie>)
    returns (r: Result<Json, StoreError>)
    modifies engine
    ensures (r, engine.State()) == SaveCookieSpec(old(engine.State()), response, parse)
  {
    var parsed := ParsedCookies(response.setCookie, parse);
    ghost var s0 := engine.State();
    var i := 0;
    while i < |parsed|
      invariant 0 <= i <= |parsed|
      invariant SaveAllSpec(s0, parsed) == SaveAllSpec(engine.State(), parsed[i..])
    {
      assert parsed[i..][1..] == parsed[i + 1..];
      if parsed[i].Some? {
        var saved := SetInternalCookie(ToCookie(parsed[i].value), engine);
        if saved.Fail? {
          r := Failure(saved.error);
          return;
        }
      }
      i := i + 1;
    }
    r := Success(response.data);
  }

  /** The last cookie that parsed, if any. */
  function LastParsed(ps: seq<Option<ParsedCookie>>): Option<ParsedCookie>
  {
    if ps == [] then None
    else if ps[|ps| - 1].Some? then ps[|ps| - 1]
    else LastParsed(ps[..|ps| - 1])
  }

  lemma PutTwice(s: StoreState<StoredCookie>, a: StoredCookie, b: StoredCookie)
    ensures Put(Put(s, AuthTableName, AuthCookieKey, a), AuthTableName, AuthCookieKey, b) ==
            Put(s, AuthTableName, AuthCookieKey, b)
  {
    var k := (AuthTableName, AuthCookieKey);
    assert s.records[k := a][k := b] == s.records[k := b];
  }

  /** Saving a list of parsed cookies is one overwrite with the last of them: unparsable lines
      leave the store alone, and a table whose writes fail rejects at the first cookie that
      parsed, without change. */
  lemma {:induction false} SaveAllEffect(s: StoreState<StoredCookie>, ps: seq<Option<ParsedCookie>>)
    decreases |ps|
    ensures var (r, s') := SaveAllSpec(s, ps);
            if LastParsed(ps).None? then r == Pass && s' == s
            else if AuthTableName in s.writeFaulty then r == Fail(IoFailure) && s' == s
            else r == Pass && s' == Put(s, AuthTableName, AuthCookieKey, Persisted(ToCookie(LastParsed(ps).value)))
  {
    if ps != [] {
      SaveAllEffect(s, ps[1..]);
      LastParsedTail(ps);
      if ps[0].Some? && AuthTableName !in s.writeFaulty {
        var s1 := Put(s, AuthTableName, AuthCookieKey, Persisted(ToCookie(ps[0].value)));
        SaveAllEffect(s1, ps[1..]);
        if LastParsed(ps[1..]).Some? {
          PutTwice(s, Persisted(ToCookie(ps[0].value)), Persisted(ToCookie(LastParsed(ps[1..]).value)));
        }
      }
    }
  }

  /** `LastParsed` read from the front: the last parsed cookie of the tail, else the head. */
  lemma {:induction false} LastParsedTail(ps: seq<Option<ParsedCookie>>)
    requires ps != []
    ensures LastParsed(ps) == if LastParsed(ps[1..]).Some? then LastParsed(ps[1..]) else ps[0]
  {
    if |ps| > 1 {
      assert ps[1..][..|ps[1..]| - 1] == ps[..|ps| - 1][1..];
      if ps[|ps| - 1].None? {
        LastParsedTail(ps[..|ps| - 1]);
        assert ps[..|ps| - 1][0] == ps[0];
      }
    }
  }

  /** Round trip: after a successful `saveCookie`, the slot loads as the last cookie that the
      response set (unless reads of the table fail), or as it did before when the response set
      none that parsed. */
  lemma SaveCookieThenLoad(s: StoreState<StoredCookie>, response: Response, parse: string -> Option<ParsedCookie>)
    ensures var (r, s') := SaveCookieSpec(s, response, parse);
            var last := LastParsed(ParsedCookies(response.setCookie, parse));
            && (r.Success? ==> r.value == response.data)
            && (r.Success? <==> last.None? || AuthTableName !in s.writeFaulty)
            && (r.Failure? ==> r.error == IoFailure && s' == s)
            && (last.None? ==> s' == s)
            && (r.Success? && last.Some? ==>
                  LoadSpec(s') == if AuthTableName in s.readFaulty then Failure(IoFailure)
                                  else Success(ToCookie(last.value)))
  {
    var ps := ParsedCookies(response.setCookie, parse);
    SaveAllEffect(s, ps);
    if LastParsed(ps).Some? && AuthTableName !in s.writeFaulty {
      PutReadBack(s, AuthTableName, AuthCookieKey, Persisted(ToCookie(LastParsed(ps).value)), AuthTableName, AuthCookieKey);
    }
  }

  /** The edit `sendRequestWithCookie` makes once the cookie is loaded: a live cookie adds a
      `Cookie: zuid=<zuid>` header and turns on credentials; an expired one leaves the config. */
  function WithCookie(cfg: Config, cookie: Cookie, expired: bool): (r: Config)
    ensures expired ==> r == cfg
    ensures !expired ==> && r.headers.Some?
                         && "Cookie" in r.headers.value
                         && r.headers.value["Cookie"] == "zuid=" + cookie.zuid
                         && r.withCredentials
                         && (forall h :: h != "Cookie" ==> (h in r.headers.value <==> h in Spread(cfg.headers)))
                         && (forall h :: h != "Cookie" && h in r.headers.value ==> r.headers.value[h] == Spread(cfg.headers)[h])
                         && r == cfg.(headers := r.headers, withCredentials := true)
  {
    if expired then cfg
    else cfg.(headers := Some(Spread(cfg.headers)["Cookie" := "zuid=" + cookie.zuid]), withCredentials := true)
  }
}
