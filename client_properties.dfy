/**
 * What `loadResponse` and `getBearerToken` promise, stated over ClientSpec's
 * functions: how many requests one call can send, which request goes first,
 * what a cache hit and a cache miss do, when the INVALID_TOKEN retry happens
 * and when it cannot, and which exception each kind of failure produces.
 */
module ClientProperties {
  import opened Php
  import opened Exceptions
  import opened ClientSpec

  /** The state after sending `req` and receiving `resp`. */
  function Received(s: State, req: Request, resp: HttpResponse): State {
    s.(sent := s.sent + [req], response := Some(resp), responseBody := Some(resp.body))
  }

  /** A live cached token that `getBearerToken` returns as a string. */
  predicate HasToken(s: State, now: int) {
    Live(s.cache, TOKEN_CACHE_KEY, now) && StringArgument(s.cache[TOKEN_CACHE_KEY].value).Some?
  }

  /** The text of that token. */
  function Token(s: State, now: int): string
    requires HasToken(s, now)
  {
    StringArgument(s.cache[TOKEN_CACHE_KEY].value).value
  }

  // ---------------------------------------------------------------------
  // How many requests a call sends
  // ---------------------------------------------------------------------

  /** An authentication pass sends exactly the authentication request. */
  lemma AuthenticationPassSendsOne(env: Env, s: State)
    requires s.retries <= 1
    ensures var a := Attempt(Authenticate, env, s);
      && a.state.sent == s.sent + [AuthRequest(env.config)]
      && a.state.retries == s.retries + (if a.Retry? then 1 else 0)
  {
  }

  /**
   * Authentication sends one request per pass, and a pass repeats only by
   * spending the retry budget: the requests sent are one more than the
   * retries spent, so at most two.
   */
  lemma {:induction false} AuthenticationSends(env: Env, s: State)
    requires s.retries <= 1
    ensures var res := Load(Authenticate, env, s);
      && |res.1.sent| == |s.sent| + 1 + (res.1.retries - s.retries)
      && |res.1.sent| <= |s.sent| + 2 - s.retries
    decreases 1 - s.retries
  {
    AuthenticationPassSendsOne(env, s);
    var a := Attempt(Authenticate, env, s);
    if a.Retry? {
      AuthenticationSends(env, a.state);
    }
  }

  /** Obtaining a token sends nothing on a cache hit, and on a miss one more request than the retries spent. */
  lemma BearerTokenSends(env: Env, s: State)
    requires s.retries <= 1
    ensures var t := BearerToken(env, s);
      |t.1.sent| <= |s.sent| + 1 + (t.1.retries - s.retries)
  {
    if !Live(s.cache, TOKEN_CACHE_KEY, env.now) {
      AuthenticationSends(env, s);
    }
  }

  /** A pass of a public call sends its own request and what obtaining the token sends. */
  lemma ApiPassSends(call: ClientCall, env: Env, s: State)
    requires s.retries <= 1
    ensures var a := Attempt(Api(call), env, s);
      |a.state.sent| + (if a.Retry? then 1 else 0) <= |s.sent| + 2 + (a.state.retries - s.retries)
  {
    BearerTokenSends(env, s);
  }

  /**
   * A public call sends at most two requests per retry it spends plus two,
   * and so at most four: token, call, fresh token, call again.
   */
  lemma {:induction false} ApiSends(call: ClientCall, env: Env, s: State)
    requires s.retries <= 1
    ensures var res := Load(Api(call), env, s);
      && |res.1.sent| <= |s.sent| + 2 + 2 * (res.1.retries - s.retries)
      && |res.1.sent| <= |s.sent| + 4
    decreases 1 - s.retries
  {
    ApiPassSends(call, env, s);
    var a := Attempt(Api(call), env, s);
    if a.Retry? {
      ApiSends(call, env, a.state);
    }
  }

  /** Once the client has spent its retry, a public call sends at most two requests. */
  lemma ApiSendsAfterRetrySpent(call: ClientCall, env: Env, s: State)
    requires s.retries == 1
    ensures |Load(Api(call), env, s).1.sent| <= |s.sent| + 2
  {
    ApiSends(call, env, s);
  }

  // ---------------------------------------------------------------------
  // The first request of a call
  // ---------------------------------------------------------------------

  /** Every request a call sends stays in the record: later passes only append. */
  lemma {:induction false} LoadExtendsAttempt(c: Call, env: Env, s: State)
    requires s.retries <= 1
    ensures Attempt(c, env, s).state.sent <= Load(c, env, s).1.sent
  {
  }

  /**
   * With a live cached token, the first request a public call sends is that
   * call with the header `Authorization: Bearer <cached token>`.
   */
  lemma ApiRequestCarriesCachedToken(call: ClientCall, env: Env, s: State)
    requires s.retries <= 1
    requires HasToken(s, env.now)
    ensures var res := Load(Api(call), env, s);
      |res.1.sent| > |s.sent| &&
      res.1.sent[|s.sent|] == ApiRequest(call, Token(s, env.now))
  {
    LoadExtendsAttempt(Api(call), env, s);
    ApiPassSendsCachedToken(call, env, s);
  }

  /** With a usable cached token, a pass of a public call sends exactly that call with the token. */
  lemma ApiPassSendsCachedToken(call: ClientCall, env: Env, s: State)
    requires s.retries <= 1
    requires HasToken(s, env.now)
    ensures Attempt(Api(call), env, s).state.sent == s.sent + [ApiRequest(call, Token(s, env.now))]
  {
    assert BearerToken(env, s) == (Success(Token(s, env.now)), s);
  }

  /**
   * With a usable cached token and a response that reports no error, a public
   * call sends exactly one request and returns the decoded body unchanged when
   * it is an object, keeping the response and the body as the client's last
   * response; any other body fails the `object` return type.
   */
  lemma AcceptedResponseReturned(call: ClientCall, env: Env, s: State, resp: HttpResponse)
    requires s.retries <= 1
    requires HasToken(s, env.now)
    requires env.script(|s.sent|) == Ok(resp) && !IsErrorResponse(resp)
    ensures Load(Api(call), env, s) ==
      (if resp.body.Obj? then Success(resp.body) else Failure(PhpFault(TypeError)),
       Received(s, ApiRequest(call, Token(s, env.now)), resp))
  {
  }

  // ---------------------------------------------------------------------
  // The token cache
  // ---------------------------------------------------------------------

  /**
   * On a cache miss the client authenticates; when the authentication
   * response reports no error and has a `token`, that value is cached as it
   * is for 23 hours (live until then unless it is null, expired after) and
   * returned converted to a string: an integer or a boolean becomes its text,
   * anything else is a TypeError.
   */
  lemma CacheMissAuthenticates(env: Env, s: State, resp: HttpResponse, v: PhpValue)
    requires s.retries <= 1
    requires !Live(s.cache, TOKEN_CACHE_KEY, env.now)
    requires env.script(|s.sent|) == Ok(resp) && !IsErrorResponse(resp)
    requires Prop(resp.body, "token") == Some(v)
    ensures var t := BearerToken(env, s);
      && t.0 == ReturnedToken(v)
      && t.1.sent == s.sent + [AuthRequest(env.config)]
      && t.1.cache == s.cache[TOKEN_CACHE_KEY := CacheEntry(v, env.now + TOKEN_LIFETIME)]
      && (Live(t.1.cache, TOKEN_CACHE_KEY, env.now + TOKEN_LIFETIME - 1) <==> !v.Null?)
      && !Live(t.1.cache, TOKEN_CACHE_KEY, env.now + TOKEN_LIFETIME)
      && t.1.responseBody == Some(resp.body) && t.1.retries == s.retries
  {
    var s1 := Received(s, AuthRequest(env.config), resp);
    assert Attempt(Authenticate, env, s) == Done(Success(resp.body), s1);
  }

  /** An integer token is sent as its decimal text, which reads back as the integer. */
  lemma IntegerTokenUsedAsText(env: Env, s: State, resp: HttpResponse, i: int)
    requires s.retries <= 1
    requires !Live(s.cache, TOKEN_CACHE_KEY, env.now)
    requires env.script(|s.sent|) == Ok(resp) && !IsErrorResponse(resp)
    requires Prop(resp.body, "token") == Some(Int(i))
    ensures var t := BearerToken(env, s);
      t.0.Success? && IsIntString(t.0.value) && ParseIntString(t.0.value) == i
  {
    CacheMissAuthenticates(env, s, resp, Int(i));
  }

  /**
   * A `token` that is an array or an object is cached before the conversion
   * to a string fails, so the call fails with a TypeError, and so does every
   * later public call while the entry lives, without sending anything.
   */
  lemma PoisonedTokenCached(call: ClientCall, env: Env, s: State, resp: HttpResponse, v: PhpValue, later: int)
    requires s.retries <= 1
    requires !Live(s.cache, TOKEN_CACHE_KEY, env.now)
    requires env.script(|s.sent|) == Ok(resp) && !IsErrorResponse(resp)
    requires Prop(resp.body, "token") == Some(v) && (v.Arr? || v.Obj?)
    requires env.now <= later < env.now + TOKEN_LIFETIME
    ensures var t := BearerToken(env, s);
      && t.0 == Failure(PhpFault(TypeError))
      && Load(Api(call), env.(now := later), t.1) == (Failure(PhpFault(TypeError)), t.1)
  {
    CacheMissAuthenticates(env, s, resp, v);
  }

  /**
   * An authentication response without a `token` property is a warning
   * raised before `Cache::put`, so nothing is cached; a body that is not an
   * object already fails the `object` return type of `loadResponse`.
   */
  lemma MissingTokenProperty(env: Env, s: State, resp: HttpResponse)
    requires s.retries <= 1
    requires !Live(s.cache, TOKEN_CACHE_KEY, env.now)
    requires env.script(|s.sent|) == Ok(resp) && !IsErrorResponse(resp)
    requires Prop(resp.body, "token").None?
    ensures var t := BearerToken(env, s);
      t.0 == Failure(PhpFault(if resp.body.Obj? then Warning else TypeError)) && t.1.cache == s.cache
  {
    var s1 := Received(s, AuthRequest(env.config), resp);
    assert Attempt(Authenticate, env, s) == Done(Returned(resp.body), s1);
  }

  // ---------------------------------------------------------------------
  // INVALID_TOKEN and the retry budget
  // ---------------------------------------------------------------------

  /**
   * An INVALID_TOKEN error while the budget is unspent deletes the cached
   * token, spends the budget and runs the call again from there.
   */
  lemma InvalidTokenRetries(call: ClientCall, env: Env, s: State, resp: HttpResponse)
    requires s.retries == 0
    requires HasToken(s, env.now)
    requires env.script(|s.sent|) == Ok(resp) && IsErrorResponse(resp) && InvalidToken(resp.body)
    ensures var s1 := Received(s, ApiRequest(call, Token(s, env.now)), resp);
      && Load(Api(call), env, s) == Load(Api(call), env, Evicted(s1))
      && Evicted(s1).retries == 1
      && !Live(Evicted(s1).cache, TOKEN_CACHE_KEY, env.now)
  {
  }

  /**
   * Any other error response (or INVALID_TOKEN once the budget is spent)
   * with an integer `ErrorCode` and a string `ErrorText` raises a
   * HelloCashException with that text and code.
   */
  lemma ErrorResponseRaised(c: Call, env: Env, s: State, resp: HttpResponse, code: int, text: string)
    requires s.retries <= 1
    requires c.Authenticate? || HasToken(s, env.now)
    requires env.script(|s.sent|) == Ok(resp)
    requires ErrorCode(resp) == Some(Int(code)) && code != 0 && Prop(resp.body, "ErrorText") == Some(Str(text))
    requires !(InvalidToken(resp.body) && s.retries == 0)
    ensures var e := NewException(text, Numeric(code));
      && Load(c, env, s).0 == Failure(Raised(e))
      && e.code != Numeric(BALANCE_TOO_LOW)
      && ParseMessage(e.message) == Some((Numeric(code), text))
  {
    MessageRoundTrip(text, Numeric(code));
  }

  /** An error response without an `ErrorText` property fails with the warning reading it raises. */
  lemma MissingErrorTextIsWarning(c: Call, env: Env, s: State, resp: HttpResponse)
    requires s.retries <= 1
    requires c.Authenticate? || HasToken(s, env.now)
    requires env.script(|s.sent|) == Ok(resp) && IsErrorResponse(resp)
    requires Prop(resp.body, "ErrorText").None?
    requires !(InvalidToken(resp.body) && s.retries == 0)
    ensures Load(c, env, s).0 == Failure(PhpFault(Warning))
  {
  }

  /**
   * The retry budget belongs to the client, not to the call: once spent it is
   * never restored, so a later INVALID_TOKEN is raised without a retry.
   */
  lemma NoRetryOnceSpent(call: ClientCall, env: Env, s: State, resp: HttpResponse)
    requires s.retries == 1
    requires HasToken(s, env.now)
    requires env.script(|s.sent|) == Ok(resp) && IsErrorResponse(resp) && InvalidToken(resp.body)
    ensures Load(Api(call), env, s).0 ==
      Failure(Thrown(Construct(Prop(resp.body, "ErrorText"), ErrorCode(resp).value)))
    ensures |Load(Api(call), env, s).1.sent| == |s.sent| + 1
  {
  }

  /**
   * Authentication shares the budget: an INVALID_TOKEN answer to the
   * authentication request spends it, so the public call that needed the
   * token can no longer retry.
   */
  lemma AuthenticationSpendsBudget(call: ClientCall, env: Env, s: State, bad: HttpResponse)
    requires s.retries == 0
    requires !Live(s.cache, TOKEN_CACHE_KEY, env.now)
    requires env.script(|s.sent|) == Ok(bad) && IsErrorResponse(bad) && InvalidToken(bad.body)
    ensures BearerToken(env, s).1.retries == 1
  {
    var s1 := Received(s, AuthRequest(env.config), bad);
    assert Attempt(Authenticate, env, s) == Retry(Evicted(s1));
    assert BearerToken(env, s).1.retries >= Evicted(s1).retries;
  }

  /**
   * Two INVALID_TOKEN answers in a row: the first triggers one fresh
   * authentication and one repeat of the call, the second is raised. Three
   * requests are sent: the call, the authentication, the call again.
   */
  lemma TwoInvalidTokensFail(call: ClientCall, env: Env, s: State,
                             bad1: HttpResponse, auth: HttpResponse, token: string, bad2: HttpResponse)
    requires s.retries == 0
    requires HasToken(s, env.now)
    requires env.script(|s.sent|) == Ok(bad1) && IsErrorResponse(bad1) && InvalidToken(bad1.body)
    requires env.script(|s.sent| + 1) == Ok(auth) && !IsErrorResponse(auth)
    requires Prop(auth.body, "token") == Some(Str(token))
    requires env.script(|s.sent| + 2) == Ok(bad2) && IsErrorResponse(bad2) && InvalidToken(bad2.body)
    ensures var res := Load(Api(call), env, s);
      && res.0 == Failure(Thrown(Construct(Prop(bad2.body, "ErrorText"), ErrorCode(bad2).value)))
      && res.1.sent == s.sent + [ApiRequest(call, Token(s, env.now)),
                                 AuthRequest(env.config), ApiRequest(call, token)]
      && res.1.retries == 1
      && TOKEN_CACHE_KEY in res.1.cache && res.1.cache[TOKEN_CACHE_KEY] == CacheEntry(Str(token), env.now + TOKEN_LIFETIME)
  {
    var s1 := Evicted(Received(s, ApiRequest(call, Token(s, env.now)), bad1));
    InvalidTokenRetries(call, env, s, bad1);
    CacheMissAuthenticates(env, s1, auth, Str(token));
    var t := BearerToken(env, s1);
    NoRetryOnceSpent(call, env, t.1, bad2);
  }

  // ---------------------------------------------------------------------
  // Results and transport failures
  // ---------------------------------------------------------------------

  /** A pass that ends in success kept a response that reports no error, and returns its body. */
  lemma AttemptSuccessAccepted(c: Call, env: Env, s: State)
    requires s.retries <= 1
    ensures var a := Attempt(c, env, s);
      a.Done? && a.result.Success? ==>
        && a.state.response.Some? && !IsErrorResponse(a.state.response.value)
        && a.result.value == a.state.response.value.body && a.result.value.Obj?
        && a.state.responseBody == Some(a.result.value)
  {
  }


  /**
   * Whatever the number of passes, a call that succeeds returns the body of a
   * response that reported no error, and that response and body are the
   * client's last ones.
   */
  lemma {:induction false} SuccessAccepted(c: Call, env: Env, s: State)
    requires s.retries <= 1
    ensures var res := Load(c, env, s);
      res.0.Success? ==>
        && res.1.response.Some? && !IsErrorResponse(res.1.response.value)
        && res.0.value == res.1.response.value.body && res.0.value.Obj?
        && res.1.responseBody == Some(res.0.value)
    decreases 1 - s.retries
  {
    AttemptSuccessAccepted(c, env, s);
    var a := Attempt(c, env, s);
    if a.Retry? {
      SuccessAccepted(c, env, a.state);
    }
  }

  /**
   * A transport failure of the request a call sends first ends the call with
   * the exception `Classify` gives, after exactly one request, and spends no
   * retry.
   */
  lemma TransportFailureClassified(c: Call, env: Env, s: State)
    requires s.retries <= 1
    requires c.Authenticate? || HasToken(s, env.now)
    requires !env.script(|s.sent|).Ok?
    ensures var res := Load(c, env, s);
      && res.0 == Failure(Classify(env.script(|s.sent|)))
      && |res.1.sent| == |s.sent| + 1
      && res.1.retries == s.retries && res.1.cache == s.cache
  {
  }

  /**
   * A 403 keeps the previous body; any other 4xx keeps the error body it
   * carried as the client's last body.
   */
  lemma ClientFailureBody(c: Call, env: Env, s: State)
    requires s.retries <= 1
    requires c.Authenticate? || HasToken(s, env.now)
    requires env.script(|s.sent|).ClientFailure?
    ensures var o := env.script(|s.sent|);
      Load(c, env, s).1.responseBody == if o.status == 403 then s.responseBody else Some(o.body)
  {
  }
}
