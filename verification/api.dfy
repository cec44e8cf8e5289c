/** The credentialed request helper (src/lib/api.ts): base-URL selection, URL
    resolution, request-init construction and response decoding. `fetch` itself is
    outside the model: a request is a value, and what came back is an input. */
module Api {
  import opened Wrappers
  import opened Json
  import Decimal

  /** `s.startsWith(p)`. */
  predicate StartsWith(s: string, p: string) {
    |p| <= |s| && s[..|p|] == p
  }

  // ---------------------------------------------------------------- API_BASE

  /** The build-time environment: `import.meta.env.PROD` and `VITE_API_BASE2`
      (None when the variable is not defined). */
  datatype BuildEnv = BuildEnv(prod: bool, apiBase2: Option<string>)

  const DefaultBase: string := "/api"

  /** `API_BASE`: "/api" in production; in development `VITE_API_BASE2` when it is
      set and non-empty (an empty string is falsy for `||`), else "/api". */
  function ApiBase(env: BuildEnv): (base: string)
    ensures base != ""
    ensures env.prod ==> base == DefaultBase
    ensures base == DefaultBase || (!env.prod && env.apiBase2 == Some(base))
    ensures !env.prod && env.apiBase2.Some? && env.apiBase2.value != "" ==> base == env.apiBase2.value
  {
    if env.prod then DefaultBase
    else if env.apiBase2.Some? && env.apiBase2.value != "" then env.apiBase2.value
    else DefaultBase
  }

  // ---------------------------------------------------------------- absolute

  /** True for the paths `absolute` passes through untouched. Note that any path
      beginning with the four letters "http" qualifies, "httpbin/x" included. */
  predicate IsAbsoluteUrl(path: string) {
    StartsWith(path, "http")
  }

  /** The path with at least one leading "/": one is added only when it has none. */
  function Rooted(path: string): (r: string)
    ensures StartsWith(r, "/")
  {
    if StartsWith(path, "/") then path else "/" + path
  }

  /** `absolute(path)`: a path starting with "http" is returned unchanged; any other
      path is appended to the base, with a "/" inserted only when the path lacks one.
      No existing base prefix is detected. */
  function Absolute(base: string, path: string): (url: string)
    ensures IsAbsoluteUrl(path) ==> url == path
    ensures !IsAbsoluteUrl(path) ==> url == base + Rooted(path)
  {
    if StartsWith(path, "http") then path
    else base + (if StartsWith(path, "/") then "" else "/") + path
  }

  /** Strips a base prefix from a URL: the inverse of `Absolute` on relative paths. */
  function StripBase(base: string, url: string): Option<string> {
    if StartsWith(url, base) then Some(url[|base|..]) else None
  }

  /** Every relative path resolves under the base, and stripping the base gives back
      the path with a "/" added only when it had none: the base is never omitted and
      the join never inserts a second slash. */
  lemma AbsoluteUnderBase(base: string, path: string)
    requires !IsAbsoluteUrl(path)
    ensures StartsWith(Absolute(base, path), base)
    ensures StripBase(base, Absolute(base, path)) == Some(Rooted(path))
    ensures |Absolute(base, path)| == |base| + |path| + (if StartsWith(path, "/") then 0 else 1)
  {
  }

  /** A path already carrying a relative base (one starting with "/") gets the base a
      second time: `absolute` applied to its own output doubles the prefix. */
  lemma AbsoluteDoublesRelativeBase(base: string, path: string)
    requires StartsWith(base, "/")
    requires !IsAbsoluteUrl(path)
    ensures Absolute(base, Absolute(base, path)) == base + Absolute(base, path)
  {
  }

  /** With an "http..." base, resolving an already-resolved path changes nothing. */
  lemma AbsoluteIdempotentForHttpBase(base: string, path: string)
    requires IsAbsoluteUrl(base)
    ensures Absolute(base, Absolute(base, path)) == Absolute(base, path)
  {
  }

  /** The production base "/api" is added again to "/api/..." paths:
      `absolute("/api/x")` is "/api/api/x". */
  lemma ProductionBaseDoubled(env: BuildEnv, rest: string)
    requires env.prod
    ensures Absolute(ApiBase(env), "/api" + rest) == "/api/api" + rest
  {
  }

  // ---------------------------------------------------------------- buildInit

  datatype RequestInit = RequestInit(
    verb: string,
    credentials: string,
    headers: seq<(string, string)>,
    body: Option<string>)

  const JsonHeaders: seq<(string, string)> := [("Content-Type", "application/json")]

  /** `buildInit(method, body)`: cookies are always sent and received, the JSON
      content type is always declared, and a body is attached exactly when the
      argument is not `undefined` (None); it is the stringified argument. */
  function BuildInit(codec: Codec, verb: string, body: Option<Json>): (init: RequestInit)
    ensures init.verb == verb
    ensures init.credentials == "include"
    ensures init.headers == JsonHeaders
    ensures init.body.Some? <==> body.Some?
    ensures body.Some? ==> init.body == Some(codec.stringify(body.value))
  {
    RequestInit(verb, "include", JsonHeaders,
      if body.Some? then Some(codec.stringify(body.value)) else None)
  }

  /** When the codec reads the argument's stringification back, the attached body
      parses back to the argument. */
  lemma BuildInitBodyRoundTrip(codec: Codec, verb: string, body: Json)
    requires codec.parse(codec.stringify(body)) == Some(body)
    ensures BuildInit(codec, verb, Some(body)).body.Some?
    ensures codec.parse(BuildInit(codec, verb, Some(body)).body.value) == Some(body)
  {
  }

  // ---------------------------------------------------------------- requests

  /** What a call of the helper hands to `fetch`. */
  datatype Request = Request(url: string, init: RequestInit)

  /** The helper's configuration: the resolved `API_BASE` and the JSON codec. */
  datatype Client = Client(base: string, codec: Codec)

  function MakeRequest(c: Client, verb: string, path: string, body: Option<Json>): Request {
    Request(Absolute(c.base, path), BuildInit(c.codec, verb, body))
  }

  /** `getJSON(path)`: a GET without a body. */
  function GetRequest(c: Client, path: string): (r: Request)
    ensures r.url == Absolute(c.base, path)
    ensures r.init == BuildInit(c.codec, "GET", None)
    ensures r.init.verb == "GET" && r.init.body.None?
  {
    MakeRequest(c, "GET", path, None)
  }

  /** `postJSON(path, body)`. */
  function PostRequest(c: Client, path: string, body: Option<Json>): (r: Request)
    ensures r.url == Absolute(c.base, path)
    ensures r.init == BuildInit(c.codec, "POST", body)
    ensures r.init.verb == "POST" && (r.init.body.Some? <==> body.Some?)
  {
    MakeRequest(c, "POST", path, body)
  }

  /** `patchJSON(path, body)`. */
  function PatchRequest(c: Client, path: string, body: Option<Json>): (r: Request)
    ensures r.url == Absolute(c.base, path)
    ensures r.init == BuildInit(c.codec, "PATCH", body)
    ensures r.init.verb == "PATCH" && (r.init.body.Some? <==> body.Some?)
  {
    MakeRequest(c, "PATCH", path, body)
  }

  /** `delJSON(path)`: a DELETE without a body. */
  function DeleteRequest(c: Client, path: string): (r: Request)
    ensures r.url == Absolute(c.base, path)
    ensures r.init == BuildInit(c.codec, "DELETE", None)
    ensures r.init.verb == "DELETE" && r.init.body.None?
  {
    MakeRequest(c, "DELETE", path, None)
  }

  // ---------------------------------------------------------------- asJSON

  /** The parts of a fetch `Response` that `asJSON` reads; `text` is what
      `res.text()` resolves to. `ok` is taken as given rather than derived from
      `status` (fetch sets it for statuses 200 to 299), so the lemmas below also
      cover combinations fetch never produces. */
  datatype Response = Response(status: nat, ok: bool, statusText: string, text: string)

  const NonJsonFallback: string := "Non-JSON response"

  /** `${res.status} ${res.statusText}`. */
  function StatusLine(res: Response): (s: string)
    ensures |s| > 0 && Decimal.IsDigit(s[0])
  {
    Decimal.ToDecimal(res.status) + " " + res.statusText
  }

  /** The message thrown for a non-ok response whose body was decoded. */
  function StatusMessage(codec: Codec, res: Response, json: Json): (s: string)
    ensures PropertyTruthy(json, "error") ==> s == StatusLine(res) + ": " + codec.stringify(json)
    ensures !PropertyTruthy(json, "error") ==> s == StatusLine(res)
  {
    if PropertyTruthy(json, "error") then StatusLine(res) + ": " + codec.stringify(json)
    else StatusLine(res)
  }

  /** `asJSON(res)`: empty text decodes to `{}` without parsing; text that does not
      parse is thrown as the message (whatever the status, as the parse comes first);
      a non-ok status is then thrown as its status line; otherwise the value. */
  function AsJson(codec: Codec, res: Response): (r: Result<Json, string>)
    ensures res.text == "" ==>
      r == if res.ok then Success(EmptyObject) else Failure(StatusLine(res))
    ensures res.text != "" && codec.parse(res.text).None? ==> r == Failure(res.text)
    ensures res.text != "" && codec.parse(res.text).Some? ==>
      r == if res.ok then Success(codec.parse(res.text).value)
           else Failure(StatusMessage(codec, res, codec.parse(res.text).value))
  {
    var parsed := if res.text != "" then codec.parse(res.text) else Some(EmptyObject);
    match parsed
    case None => Failure(if res.text != "" then res.text else NonJsonFallback)
    case Some(json) =>
      if !res.ok then Failure(StatusMessage(codec, res, json)) else Success(json)
  }

  /** A value comes back exactly when the status is ok and the text is empty or parses. */
  lemma AsJsonSucceedsIff(codec: Codec, res: Response)
    ensures AsJson(codec, res).Success? <==>
      res.ok && (res.text == "" || codec.parse(res.text).Some?)
  {
  }

  /** Empty text is never handed to the parser: any two codecs decode it alike. */
  lemma AsJsonEmptyTextSkipsParse(c1: Codec, c2: Codec, res: Response)
    requires res.text == ""
    ensures AsJson(c1, res) == AsJson(c2, res)
  {
  }

  /** The "Non-JSON response" fallback never surfaces unless the server sent that
      very text: the error for unparsable text is always the text itself. */
  lemma NonJsonFallbackUnreachable(codec: Codec, res: Response)
    requires AsJson(codec, res) == Failure(NonJsonFallback)
    ensures res.text == NonJsonFallback
  {
    StatusFailureStartsWithDigit(codec, res);
    assert !Decimal.IsDigit(NonJsonFallback[0]);
  }

  /** Every error thrown after a successful decode begins with the status code in
      decimal and a space, so its first character is a digit. */
  lemma StatusFailureStartsWithDigit(codec: Codec, res: Response)
    ensures res.text == "" || codec.parse(res.text).Some? ==>
      AsJson(codec, res).Failure? ==> Decimal.IsDigit(AsJson(codec, res).error[0])
    ensures res.text == "" || codec.parse(res.text).Some? ==>
      AsJson(codec, res).Failure? ==> StartsWith(AsJson(codec, res).error, Decimal.ToDecimal(res.status) + " ")
  {
  }

  /** Whether a response decodes or throws does not depend on its status code or
      status text, only on `ok` and the body; 401 and 403 get no special kind. */
  lemma AsJsonOutcomeIgnoresStatus(codec: Codec, res: Response, status: nat, statusText: string)
    ensures AsJson(codec, res.(status := status, statusText := statusText)).Success?
        == AsJson(codec, res).Success?
  {
  }

  /** A non-ok response with a decodable body throws its status line; ": <json>" is
      appended only when the body has a truthy `error` field. */
  lemma AsJsonNotOkMessage(codec: Codec, res: Response, json: Json)
    requires !res.ok
    requires (res.text == "" && json == EmptyObject) || (res.text != "" && codec.parse(res.text) == Some(json))
    ensures AsJson(codec, res) == Failure(StatusMessage(codec, res, json))
    ensures StartsWith(AsJson(codec, res).error, StatusLine(res))
  {
  }

  /** An ok response carrying a stringified value decodes to that value. */
  lemma AsJsonRoundTrip(codec: Codec, res: Response, j: Json)
    requires codec.parse(codec.stringify(j)) == Some(j)
    requires res.ok && res.text == codec.stringify(j) && res.text != ""
    ensures AsJson(codec, res) == Success(j)
  {
  }

  // ---------------------------------------------------------------- calls

  /** The settled promise of a helper call: a rejected `fetch` (transport failure)
      propagates its error unchanged, a response goes through `asJSON`. */
  function Settle(codec: Codec, fetched: Result<Response, string>): (r: Result<Json, string>)
    ensures fetched.Failure? ==> r == Failure(fetched.error)
    ensures fetched.Success? ==> r == AsJson(codec, fetched.value)
  {
    match fetched
    case Failure(e) => Failure(e)
    case Success(res) => AsJson(codec, res)
  }
}
