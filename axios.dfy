/**
 * The part of the HTTP transport's interface that the client relies on: JSON bodies with the
 * truthiness rules of JavaScript, the request configuration object that the client edits in
 * place, and the outcome of one request (a response, or an error that may carry a response).
 */
module Axios {
  import opened Wrappers

  datatype Json =
    | Null
    | Bool(b: bool)
    | Num(n: int)
    | Str(s: string)
    | Arr(items: seq<Json>)
    | Obj(fields: map<string, Json>)

  /** JavaScript truthiness; numbers are integers here, so NaN does not arise. */
  predicate Truthy(j: Json)
  {
    match j
    case Null => false
    case Bool(b) => b
    case Num(n) => n != 0
    case Str(s) => s != ""
    case Arr(_) => true
    case Obj(_) => true
  }

  /** Property access `j.name`: `None` stands for `undefined` (and for any property of null). */
  function Field(j: Json, name: string): (r: Option<Json>)
    ensures r.Some? <==> j.Obj? && name in j.fields
  {
    if j.Obj? && name in j.fields then Some(j.fields[name]) else None
  }

  /** Truthiness of `j.name`, where `undefined` is falsy. */
  predicate TruthyField(j: Json, name: string)
  {
    var f := Field(j, name);
    f.Some? && Truthy(f.value)
  }

  /** A plain-object spread `{...m}` of a value that may be `undefined`. */
  function Spread(m: Option<map<string, string>>): map<string, string>
  {
    if m.Some? then m.value else map[]
  }

  /** The value of the request configuration object at one moment; `verb` is its `method`. */
  datatype Config = Config(
    verb: string,
    url: string,
    baseURL: Option<string>,
    headers: Option<map<string, string>>,
    params: Option<map<string, string>>,
    withCredentials: bool)

  /** The `set-cookie` header of a response: absent, a single string, or an array of strings. */
  datatype SetCookieHeader = NoSetCookie | SingleCookie(line: string) | CookieList(lines: seq<string>)

  datatype Response = Response(status: int, data: Json, setCookie: SetCookieHeader)

  /** The `request` property of a failed request: absent, or an object with a number of own keys. */
  datatype RequestInfo = NoRequest | RequestObject(keyCount: nat)

  datatype AxiosError = AxiosError(response: Option<Response>, request: RequestInfo)

  /** What one call to the transport yields. */
  datatype Reply = Responded(response: Response) | Failed(error: AxiosError)

  /** The request configuration object; the client and the cookie shim edit its fields in place. */
  class RequestConfig {
    var verb: string
    var url: string
    var baseURL: Option<string>
    var headers: Option<map<string, string>>
    var params: Option<map<string, string>>
    var withCredentials: bool

    function Value(): Config
      reads this
    {
      Config(verb, url, baseURL, headers, params, withCredentials)
    }

    constructor (c: Config)
      ensures Value() == c
    {
      verb := c.verb;
      url := c.url;
      baseURL := c.baseURL;
      headers := c.headers;
      params := c.params;
      withCredentials := c.withCredentials;
    }
  }
}
