/**
 * The decision logic of HelloCashClient as functions: the request each public
 * call sends, the check of a decoded response, the classification of transport
 * failures, and `loadResponse`/`getBearerToken` as functions from the client's
 * state (retry budget, last response, last body, token cache, requests sent so
 * far) to a result and the new state. The transport is a script: the n-th
 * request sent receives `script(n)`. Client.HelloCashClient is proved to behave
 * exactly as these functions say.
 */
module ClientSpec {
  import opened Php
  import opened Exceptions

  const PRODUCTION_URL: string := "https://api-et.hellocash.net"
  const TOKEN_CACHE_KEY: string := "hellocash_token"
  const TOKEN_CACHE_HOURS: nat := 23
  /** The token lifetime on the abstract clock, which counts seconds. */
  const TOKEN_LIFETIME: nat := TOKEN_CACHE_HOURS * 3600
  const CURLOPT_SSL_CIPHER_LIST: string := "CURLOPT_SSL_CIPHER_LIST"

  /** The `hellocash` configuration the authentication request reads. */
  datatype Config = Config(principal: string, credentials: string, system: string)

  datatype Verb = GET | POST | PUT | DELETE

  /** A request handed to the transport, with the Guzzle options it carries. */
  datatype Request = Request(
    verb: Verb,
    path: string,
    query: Option<PhpArray>,
    json: Option<PhpArray>,
    headers: Option<map<string, string>>)

  /** A call of one of the client's public methods `get`, `post`, `put`, `delete`. */
  datatype ClientCall =
    | Get(path: string, query: PhpArray)
    | Post(path: string, options: PhpArray)
    | Put(path: string, query: PhpArray, options: PhpArray)
    | Delete(path: string, query: PhpArray)

  /**
   * A response the transport delivered, a PSR-7 response object. It has no
   * public properties, so the model keeps only its body as `json_decode`
   * returns it: `Null` for an empty or malformed body.
   */
  datatype HttpResponse = HttpResponse(body: PhpValue)

  /** What the transport does with one request. */
  datatype Outcome =
    | Ok(response: HttpResponse)
    | ServerFailure(message: string)                 // a 5xx: ServerException
    | ClientFailure(status: int, message: string,    // a 4xx: ClientException
                    body: PhpValue,                  //   its decoded body
                    printedBody: string)             //   print_r of that body
    | NetworkFailure(message: string)                // any other RequestException

  /**
   * How a call fails: a HelloCashException is raised, or PHP itself raises a
   * fault (a value of the wrong kind, an undefined name). The third argument
   * written at the throw sites is not kept by the exception and not modelled.
   */
  datatype ClientError = Raised(exception: HelloCashException) | PhpFault(fault: Fault)

  datatype Result<T> = Success(value: T) | Failure(error: ClientError)

  /** A cache entry: whatever value was put, and when it expires. */
  datatype CacheEntry = CacheEntry(value: PhpValue, expiresAt: int)

  /** `Cache::has($key)`: an entry exists, has not expired, and is not null. */
  predicate Live(cache: map<string, CacheEntry>, key: string, now: int) {
    key in cache && now < cache[key].expiresAt && !cache[key].value.Null?
  }

  // ---------------------------------------------------------------------
  // Construction
  // ---------------------------------------------------------------------

  /** The cURL options given to Guzzle: the cipher list is pinned unless cURL uses NSS. */
  function CurlOptions(sslVersion: string): (r: map<string, string>)
    ensures r == map[] <==> exists i :: OccursAt(sslVersion, "NSS", i)
    ensures r != map[] ==> r.Keys == {CURLOPT_SSL_CIPHER_LIST} && r[CURLOPT_SSL_CIPHER_LIST] == "TLSv1"
  {
    if !Contains(sslVersion, "NSS") then
      var r := map[CURLOPT_SSL_CIPHER_LIST := "TLSv1"];
      assert CURLOPT_SSL_CIPHER_LIST in r;
      r
    else map[]
  }

  // ---------------------------------------------------------------------
  // Requests
  // ---------------------------------------------------------------------

  /** `authenticateHeader()` once the token is known. */
  function AuthorizationHeader(token: string): (h: map<string, string>)
    ensures h.Keys == {"Authorization"}
    ensures |h["Authorization"]| == 7 + |token|
    ensures h["Authorization"][..7] == "Bearer " && h["Authorization"][7..] == token
  {
    map["Authorization" := "Bearer " + token]
  }

  /** The request a public call sends with the given bearer token. */
  function ApiRequest(call: ClientCall, token: string): (r: Request)
    ensures r.path == call.path && r.headers == Some(AuthorizationHeader(token))
    ensures r.query.Some? <==> !call.Post?
    ensures r.json.Some? <==> call.Post? || call.Put?
    ensures call.Get? ==> r.verb == GET && r.query == Some(call.query)
    ensures call.Post? ==> r.verb == POST && r.json == Some(call.options)
    ensures call.Put? ==> r.verb == PUT && r.query == Some(call.query) && r.json == Some(call.options)
    ensures call.Delete? ==> r.verb == DELETE && r.query == Some(call.query)
  {
    var h := Some(AuthorizationHeader(token));
    match call
    case Get(p, q) => Request(GET, p, Some(q), None, h)
    case Post(p, o) => Request(POST, p, None, Some(o), h)
    case Put(p, q, o) => Request(PUT, p, Some(q), Some(o), h)
    case Delete(p, q) => Request(DELETE, p, Some(q), None, h)
  }

  /** The authentication request: POST /authenticate with the configured credentials, no header. */
  function AuthRequest(cfg: Config): (r: Request)
    ensures r.verb == POST && r.path == "/authenticate" && r.query.None? && r.headers.None?
    ensures r.json.Some? && DistinctKeys(r.json.value)
    ensures Lookup(r.json.value, StrKey("principal")) == Some(Str(cfg.principal))
    ensures Lookup(r.json.value, StrKey("credentials")) == Some(Str(cfg.credentials))
    ensures Lookup(r.json.value, StrKey("system")) == Some(Str(cfg.system))
  {
    var body := [(StrKey("principal"), Str(cfg.principal)),
                 (StrKey("credentials"), Str(cfg.credentials)),
                 (StrKey("system"), Str(cfg.system))];
    assert body[1..][1..] == [(StrKey("system"), Str(cfg.system))];
    assert Lookup(body[1..][1..], StrKey("system")) == Some(Str(cfg.system));
    assert Lookup(body[1..], StrKey("system")) == Some(Str(cfg.system));
    Request(POST, "/authenticate", None, Some(body), None)
  }

  // ---------------------------------------------------------------------
  // Responses and failures
  // ---------------------------------------------------------------------

  /** `isset($body->error->message) ? $body->error->message : absent`. */
  function ErrorMessage(body: PhpValue): Option<PhpValue> {
    match IssetProp(body, "error")
    case None => None
    case Some(e) => IssetProp(e, "message")
  }

  /** `isset($body->error->message) && $body->error->message == $t` for a non-numeric `$t`. */
  predicate ErrorMessageIs(body: PhpValue, t: string)
    requires !IsIntString(t)
  {
    ErrorMessage(body).Some? && LooseEqualsText(ErrorMessage(body).value, t)
  }

  predicate InvalidToken(body: PhpValue) {
    ErrorMessageIs(body, "INVALID_TOKEN")
  }

  /** What `testForErrorAndInvalidTokenRetry` decides about a decoded response. */
  datatype Decision = Finish | RetryWithFreshToken | Throw(error: ClientError)

  /**
   * `$this->response->ErrorCode`, `$this->response->ErrorText` as the check is
   * written: read off the PSR-7 response object, which declares no such
   * properties, so `isset` never holds.
   */
  function ResponseProperty(resp: HttpResponse, name: string): (r: Option<PhpValue>)
    ensures r.None?
  {
    None
  }

  /** `testForErrorAndInvalidTokenRetry` as written: every response is accepted. */
  function CheckAsWritten(resp: HttpResponse, retries: nat): (d: Decision)
    ensures d == Finish
  {
    match IssetOf(ResponseProperty(resp, "ErrorCode"))
    case Some(code) =>
      if code == Int(0) then Finish
      else if InvalidToken(resp.body) && retries == 0 then RetryWithFreshToken
      else Throw(Thrown(Construct(ResponseProperty(resp, "ErrorText"), code)))
    case None => Finish
  }

  /** `isset` on a property read: present and not null. */
  function IssetOf(p: Option<PhpValue>): (r: Option<PhpValue>)
    ensures r.Some? <==> p.Some? && !p.value.Null?
    ensures r.Some? ==> r == p
  {
    if p.Some? && !p.value.Null? then p else None
  }

  /** The exception `testForErrorAndInvalidTokenRetry` throws, or the fault building it raises. */
  function Thrown(e: Conv<HelloCashException>): (f: ClientError)
    ensures e.Converted? ==> f == Raised(e.value)
    ensures e.Faulted? ==> f == PhpFault(e.fault)
  {
    match e
    case Converted(x) => Raised(x)
    case Faulted(x) => PhpFault(x)
  }

  /** `ErrorCode` read off the decoded body, when set. */
  function ErrorCode(resp: HttpResponse): Option<PhpValue> {
    IssetProp(resp.body, "ErrorCode")
  }

  /** A response reports an error: its `ErrorCode` is set and is not the integer 0 (`!== 0`). */
  predicate IsErrorResponse(resp: HttpResponse) {
    ErrorCode(resp).Some? && ErrorCode(resp).value != Int(0)
  }

  /**
   * `testForErrorAndInvalidTokenRetry` reading `ErrorCode` and `ErrorText`
   * off the decoded body: finish on no error; retry once on INVALID_TOKEN;
   * otherwise throw `new HelloCashException(ErrorText, ErrorCode, true)`.
   */
  function Check(resp: HttpResponse, retries: nat): (d: Decision)
    ensures d.Finish? <==> !IsErrorResponse(resp)
    ensures d.RetryWithFreshToken? <==> IsErrorResponse(resp) && InvalidToken(resp.body) && retries == 0
    ensures d.Throw? ==>
      d.error == Thrown(Construct(Prop(resp.body, "ErrorText"), ErrorCode(resp).value))
    ensures d.Throw? && ErrorCode(resp).value.Int? && Prop(resp.body, "ErrorText").Some? &&
            Prop(resp.body, "ErrorText").value.Str? ==>
      d.error == Raised(NewException(Prop(resp.body, "ErrorText").value.s, Numeric(ErrorCode(resp).value.i)))
  {
    if IsErrorResponse(resp) then
      if InvalidToken(resp.body) && retries == 0 then RetryWithFreshToken
      else Throw(Thrown(Construct(Prop(resp.body, "ErrorText"), ErrorCode(resp).value)))
    else Finish
  }

  /** Code 0 counts as success, so BALANCE_TOO_LOW is never raised from an integer code. */
  lemma CheckNeverRaisesBalanceTooLow(resp: HttpResponse, retries: nat)
    ensures Check(resp, retries).Throw? && ErrorCode(resp).value.Int? && Check(resp, retries).error.Raised? ==>
      Check(resp, retries).error.exception.code != Numeric(BALANCE_TOO_LOW)
  {
  }

  /**
   * The response of the unit test that expects an exception: its body sets
   * `ErrorCode` to 1. The check as written accepts it; the check reading the
   * body raises it.
   */
  lemma ErrorBodyAcceptedAsWritten(retries: nat)
    ensures var resp := HttpResponse(Obj([(StrKey("ErrorCode"), Int(1)), (StrKey("ErrorText"), Str("Some error occurred."))]));
      && CheckAsWritten(resp, retries) == Finish
      && Check(resp, retries) == Throw(Raised(NewException("Some error occurred.", Numeric(1))))
  {
    var resp := HttpResponse(Obj([(StrKey("ErrorCode"), Int(1)), (StrKey("ErrorText"), Str("Some error occurred."))]));
    assert ErrorCode(resp) == Some(Int(1));
    assert Prop(resp.body, "ErrorText") == Some(Str("Some error occurred."));
    assert !InvalidToken(resp.body);
  }

  /** No error response at all is detected by the check as written. */
  lemma ErrorResponsesMissedAsWritten(resp: HttpResponse, retries: nat)
    requires IsErrorResponse(resp)
    ensures CheckAsWritten(resp, retries).Finish? && !Check(resp, retries).Finish?
  {
  }

  /**
   * The message of the exception raised for a 4xx other than 403, or the
   * fault PHP raises when an `error.message` that is an array or an object is
   * concatenated into it.
   */
  function ClientExceptionMessage(message: string, body: PhpValue, printedBody: string): (m: Conv<string>)
    ensures m.Faulted? <==> ErrorMessage(body).Some? && (ErrorMessage(body).value.Arr? || ErrorMessage(body).value.Obj?)
    ensures m.Faulted? ==> m.fault == if ErrorMessage(body).value.Arr? then Warning else EngineError
    ensures m.Converted? ==>
      (StartsWith(m.value, "Invalid HelloCash account:") <==> ErrorMessageIs(body, "FROM_INVALID"))
    ensures m.Converted? && !ErrorMessageIs(body, "FROM_INVALID") ==> StartsWith(m.value, "Data Error: ")
    ensures m.Converted? && !ErrorMessageIs(body, "FROM_INVALID") && ErrorMessage(body).None? ==>
      m.value == "Data Error: " + message + " " + printedBody
  {
    if ErrorMessageIs(body, "FROM_INVALID") then Converted("Invalid HelloCash account:" + message)
    else
      var detail := if ErrorMessage(body).Some? then Interpolation(ErrorMessage(body).value) else Converted(printedBody);
      match detail
      case Faulted(f) => Faulted(f)
      case Converted(d) =>
        var m := "Data Error: " + message + " " + d;
        assert m[..12] == "Data Error: " && m[0] != "Invalid HelloCash account:"[0];
        Converted(m)
  }

  /**
   * The catch arms of `loadResponse` as written. Each throw names a class
   * constant (`SERVER_ERROR`, `WRONG_CREDENTIALS`, `CLIENT_EXCEPTION`,
   * `NETWORK_UNAVAILABLE`) that HelloCashException does not declare, so
   * evaluating the arguments raises PHP's undefined-constant Error once the
   * message has been built; only a fault building the 4xx message comes first.
   */
  function ClassifyAsWritten(o: Outcome): (f: ClientError)
    requires !o.Ok?
    ensures f.PhpFault?
    ensures o.ClientFailure? && o.status != 403 &&
            ClientExceptionMessage(o.message, o.body, o.printedBody).Faulted? ==>
      f.fault == ClientExceptionMessage(o.message, o.body, o.printedBody).fault
    ensures !(o.ClientFailure? && o.status != 403 &&
              ClientExceptionMessage(o.message, o.body, o.printedBody).Faulted?) ==>
      f.fault == EngineError
  {
    match o
    case ClientFailure(status, msg, body, printed) =>
      if status == 403 then PhpFault(EngineError)
      else
        (match ClientExceptionMessage(msg, body, printed)
         case Converted(_) => PhpFault(EngineError)
         case Faulted(fault) => PhpFault(fault))
    case _ => PhpFault(EngineError)
  }

  /**
   * As written no transport failure raises a HelloCashException: where the
   * corrected classification raises one, the code as written ends in an
   * engine Error, and where it ends in a fault, both agree.
   */
  lemma TransportFailureNeverRaisedAsWritten(o: Outcome)
    requires !o.Ok?
    ensures !ClassifyAsWritten(o).Raised?
    ensures Classify(o).Raised? ==> ClassifyAsWritten(o) == PhpFault(EngineError)
    ensures Classify(o).PhpFault? ==> ClassifyAsWritten(o) == Classify(o)
  {
  }

  /** A 5xx, as written and corrected. */
  lemma ServerFailureAsWritten(m: string)
    ensures ClassifyAsWritten(ServerFailure(m)) == PhpFault(EngineError)
    ensures Classify(ServerFailure(m)) == Raised(NewException("HelloCash Server Error: " + m, ServerError))
  {
  }

  /**
   * The exception a transport failure is turned into, corrected: the four
   * transport-failure codes are taken as declared by the class.
   */
  function Classify(o: Outcome): (f: ClientError)
    requires !o.Ok?
    ensures o.ServerFailure? ==> f.Raised? && f.exception.code == ServerError
    ensures o.ClientFailure? && o.status == 403 ==> f.Raised? && f.exception.code == WrongCredentials
    ensures o.ClientFailure? && o.status != 403 ==>
      var m := ClientExceptionMessage(o.message, o.body, o.printedBody);
      && (m.Converted? ==> f == Raised(NewException(m.value, ClientException)))
      && (m.Faulted? ==> f == PhpFault(m.fault))
    ensures o.NetworkFailure? ==> f.Raised? && f.exception.code == NetworkUnavailable
  {
    match o
    case ServerFailure(msg) =>
      Raised(NewException("HelloCash Server Error: " + msg, ServerError))
    case ClientFailure(status, msg, body, printed) =>
      if status == 403 then
        Raised(NewException("HelloCash Credentials are wrong, please reconfigure. " + msg, WrongCredentials))
      else
        (match ClientExceptionMessage(msg, body, printed)
         case Converted(m) => Raised(NewException(m, ClientException))
         case Faulted(fault) => PhpFault(fault))
    case NetworkFailure(msg) =>
      Raised(NewException("Unable to contact HelloCash: " + msg, NetworkUnavailable))
  }

  // ---------------------------------------------------------------------
  // loadResponse and getBearerToken
  // ---------------------------------------------------------------------

  /** Everything a call depends on besides the client's state. */
  datatype Env = Env(config: Config, now: int, script: nat -> Outcome)

  /** The client's state together with the shared token cache and the requests sent so far. */
  datatype State = State(
    retries: nat,
    response: Option<HttpResponse>,
    responseBody: Option<PhpValue>,
    cache: map<string, CacheEntry>,
    sent: seq<Request>)

  /** Which closure `loadResponse` runs: the authentication POST or a public call. */
  datatype Call = Authenticate | Api(call: ClientCall)

  function Rank(c: Call): nat {
    if c.Api? then 2 else 0
  }

  /** The state after an INVALID_TOKEN response: the cached token is deleted and the budget spent. */
  function Evicted(s: State): State {
    s.(cache := s.cache - {TOKEN_CACHE_KEY}, retries := s.retries + 1)
  }

  /** A public call whose live cached token cannot be returned as a string: it fails before sending anything. */
  predicate UnusableCachedToken(c: Call, env: Env, s: State) {
    c.Api? && Live(s.cache, TOKEN_CACHE_KEY, env.now) && ReturnedToken(s.cache[TOKEN_CACHE_KEY].value).Failure?
  }

  /** How one pass of the `loadResponse` loop ends: with a result, or asking for another pass. */
  datatype Attempted = Done(result: Result<PhpValue>, state: State) | Retry(state: State)

  /**
   * One pass of the `loadResponse` do/while: build the request (for a public
   * call this first obtains the bearer token, which may itself run
   * `loadResponse` for authentication), send it, keep the response and its
   * decoded body, and check it.
   */
  function Attempt(c: Call, env: Env, s: State): (a: Attempted)
    requires s.retries <= 1
    ensures s.retries <= a.state.retries <= 1
    ensures s.sent <= a.state.sent
    ensures a.Retry? ==> s.sent < a.state.sent
    ensures a.state.sent == s.sent ==> UnusableCachedToken(c, env, s)
    ensures a.Retry? ==> s.retries == 0 && a.state.retries == 1
    decreases Rank(c), if s.retries == 0 then 1 else 0, 0
  {
    var t := if c.Api? then BearerToken(env, s) else (Success(""), s);
    if t.0.Failure? then Done(Failure(t.0.error), t.1)
    else
      var s1 := t.1;
      var req := if c.Api? then ApiRequest(c.call, t.0.value) else AuthRequest(env.config);
      var o := env.script(|s1.sent|);
      var s2 := s1.(sent := s1.sent + [req]);
      match o
      case Ok(resp) =>
        var s3 := s2.(response := Some(resp), responseBody := Some(resp.body));
        (match Check(resp, s3.retries)
         case Finish => Done(Returned(resp.body), s3)
         case Throw(e) => Done(Failure(e), s3)
         case RetryWithFreshToken => Retry(Evicted(s3)))
      case ClientFailure(status, _, body, _) =>
        Done(Failure(Classify(o)), if status == 403 then s2 else s2.(responseBody := Some(body)))
      case _ => Done(Failure(Classify(o)), s2)
  }

  /** `return $this->response_body;` from `loadResponse(): object`: anything but an object is a TypeError. */
  function Returned(body: PhpValue): (r: Result<PhpValue>)
    ensures r.Success? <==> body.Obj?
    ensures r.Success? ==> r.value == body
    ensures r.Failure? ==> r.error == PhpFault(TypeError)
  {
    if body.Obj? then Success(body) else Failure(PhpFault(TypeError))
  }

  /** `loadResponse($call_api)`: passes until one of them ends with a result. */
  function Load(c: Call, env: Env, s: State): (res: (Result<PhpValue>, State))
    requires s.retries <= 1
    ensures s.retries <= res.1.retries <= 1
    ensures s.sent <= res.1.sent
    ensures res.1.sent == s.sent ==> UnusableCachedToken(c, env, s)
    decreases Rank(c), if s.retries == 0 then 1 else 0, 1
  {
    match Attempt(c, env, s)
    case Done(r, s1) => (r, s1)
    case Retry(s1) => Load(c, env, s1)
  }

  /** A token returned from `getBearerToken(): string`: converted to a string, or a TypeError. */
  function ReturnedToken(v: PhpValue): (r: Result<string>)
    ensures r.Success? <==> StringArgument(v).Some?
    ensures r.Success? ==> r.value == StringArgument(v).value
    ensures r.Failure? ==> r.error == PhpFault(TypeError)
  {
    match StringArgument(v)
    case Some(t) => Success(t)
    case None => Failure(PhpFault(TypeError))
  }

  /**
   * `getBearerToken()`: the cached token while it lives; otherwise
   * authenticate, cache the response's `token` as it is for 23 hours, and
   * return it converted to a string. An undefined `token` is a warning raised
   * before anything is cached.
   */
  function BearerToken(env: Env, s: State): (res: (Result<string>, State))
    requires s.retries <= 1
    ensures s.retries <= res.1.retries <= 1
    ensures s.sent <= res.1.sent
    ensures Live(s.cache, TOKEN_CACHE_KEY, env.now) ==>
      res == (ReturnedToken(s.cache[TOKEN_CACHE_KEY].value), s)
    decreases 1, 0, 0
  {
    if Live(s.cache, TOKEN_CACHE_KEY, env.now) then (ReturnedToken(s.cache[TOKEN_CACHE_KEY].value), s)
    else
      var a := Load(Authenticate, env, s);
      if a.0.Failure? then (Failure(a.0.error), a.1)
      else
        var s1 := a.1.(responseBody := Some(a.0.value));
        match Prop(a.0.value, "token")
        case None => (Failure(PhpFault(Warning)), s1)
        case Some(v) =>
          (ReturnedToken(v), s1.(cache := s1.cache[TOKEN_CACHE_KEY := CacheEntry(v, env.now + TOKEN_LIFETIME)]))
  }
}
