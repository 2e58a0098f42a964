/**
 * HelloCashClient as an object: its retry budget and last response live in
 * fields that `loadResponse`, `testForErrorAndInvalidTokenRetry` and
 * `getBearerToken` update, the token cache and the transport are objects it
 * shares. Every method is proved to produce exactly the result and the new
 * state that ClientSpec.Load / ClientSpec.BearerToken give.
 */
module Client {
  import opened Php
  import opened Exceptions
  import opened ClientSpec

  /** The application's token cache: entries with an expiry time. */
  class Cache {
    var entries: map<string, CacheEntry>

    constructor ()
      ensures entries == map[]
    {
      entries := map[];
    }

    /** `Cache::has($key)`. */
    predicate Has(key: string, now: int)
      reads this
    {
      Live(entries, key, now)
    }

    /** `Cache::get($key)` for a key that is present. */
    method Get(key: string) returns (v: PhpValue)
      requires key in entries
      ensures v == entries[key].value
    {
      v := entries[key].value;
    }

    /** `Cache::put($key, $value, $expiresAt)`. */
    method Put(key: string, value: PhpValue, expiresAt: int)
      modifies this
      ensures entries == old(entries)[key := CacheEntry(value, expiresAt)]
    {
      entries := entries[key := CacheEntry(value, expiresAt)];
    }

    /** `Cache::delete($key)`. */
    method Delete(key: string)
      modifies this
      ensures entries == old(entries) - {key}
    {
      entries := entries - {key};
    }
  }

  /** The HTTP transport: the n-th request sent gets `script(n)`. */
  class Transport {
    const script: nat -> Outcome
    var sent: seq<Request>

    constructor (script: nat -> Outcome)
      ensures this.script == script && sent == []
    {
      this.script := script;
      sent := [];
    }

    method Send(req: Request) returns (o: Outcome)
      modifies this
      ensures sent == old(sent) + [req]
      ensures o == script(|old(sent)|)
    {
      o := script(|sent|);
      sent := sent + [req];
    }
  }

  class HelloCashClient {
    const config: Config
    const cache: Cache
    const transport: Transport
    const baseUri: string
    const curl: map<string, string>

    /** How many automatic INVALID_TOKEN retries this client has spent; never reset. */
    var tokenRetries: nat
    /** The last response the transport delivered (`$this->response`). */
    var response: Option<HttpResponse>
    /** The last decoded body (`$this->response_body`). */
    var responseBody: Option<PhpValue>

    ghost predicate Valid()
      reads this
    {
      tokenRetries <= 1
    }

    /** The client's state, the cache's entries and the requests sent so far. */
    function Snapshot(): State
      reads this, cache, transport
    {
      State(tokenRetries, response, responseBody, cache.entries, transport.sent)
    }

    function EnvAt(now: int): Env {
      Env(config, now, transport.script)
    }

    /** `new HelloCashClient($guzzle)` with the cURL library's `ssl_version` string. */
    constructor (config: Config, sslVersion: string, cache: Cache, transport: Transport)
      ensures Valid()
      ensures this.config == config && this.cache == cache && this.transport == transport
      ensures baseUri == PRODUCTION_URL && curl == CurlOptions(sslVersion)
      ensures tokenRetries == 0 && response.None? && responseBody.None?
    {
      this.config := config;
      this.cache := cache;
      this.transport := transport;
      baseUri := PRODUCTION_URL;
      curl := CurlOptions(sslVersion);
      tokenRetries := 0;
      response := None;
      responseBody := None;
    }

    /**
     * `loadResponse($call_api)`: a do/while loop whose passes run until one
     * ends with a result; a pass asks for another only after spending the
     * client's retry budget, so the loop runs at most twice.
     */
    method LoadResponse(c: Call, now: int) returns (r: Result<PhpValue>)
      requires Valid()
      modifies this, cache, transport
      ensures Valid()
      ensures (r, Snapshot()) == Load(c, EnvAt(now), old(Snapshot()))
      decreases Rank(c), 1
    {
      ghost var s0 := Snapshot();
      ghost var env := EnvAt(now);
      while true
        invariant Valid()
        invariant Load(c, env, s0) == Load(c, env, Snapshot())
        decreases 1 - tokenRetries
      {
        var done;
        done, r := AttemptOnce(c, now);
        if done {
          return;
        }
      }
    }

    /**
     * One pass of the `loadResponse` loop: build the request, send it, keep
     * the response and its body, and run the error check on it. Transport
     * failures end the loop with the exception `Classify` gives.
     */
    method AttemptOnce(c: Call, now: int) returns (done: bool, r: Result<PhpValue>)
      requires Valid()
      modifies this, cache, transport
      ensures Valid()
      ensures Attempt(c, EnvAt(now), old(Snapshot())) ==
        if done then Done(r, Snapshot()) else Retry(Snapshot())
      decreases Rank(c), 0
    {
      var req: Request;
      if c.Api? {
        var token := GetBearerToken(now);
        if token.Failure? {
          return true, Failure(token.error);
        }
        req := ApiRequest(c.call, token.value);
      } else {
        req := AuthRequest(config);
      }
      var o := transport.Send(req);
      match o {
        case Ok(resp) =>
          response := Some(resp);
          responseBody := Some(resp.body);
          var retry := TestForErrorAndInvalidTokenRetry(resp);
          done := retry != Success(true);
          r := if retry.Failure? then Failure(retry.error) else Returned(resp.body);
        case ClientFailure(status, _, body, _) =>
          if status != 403 {
            responseBody := Some(body);
          }
          done, r := true, Failure(Classify(o));
        case _ =>
          done, r := true, Failure(Classify(o));
      }
    }

    /**
     * `testForErrorAndInvalidTokenRetry()` on the response just received:
     * `Success(true)` when the cached token was deleted and the budget spent
     * (retry), `Success(false)` when the response is not an error, and
     * otherwise `Failure` with the exception built from the body's
     * `ErrorText` and `ErrorCode`, or the fault building it raised.
     */
    method TestForErrorAndInvalidTokenRetry(resp: HttpResponse) returns (r: Result<bool>)
      requires Valid()
      modifies this, cache
      ensures Valid()
      ensures var d := Check(resp, old(tokenRetries));
        && (d.Finish? ==> r == Success(false) && unchanged(this, cache))
        && (d.Throw? ==> r == Failure(d.error) && unchanged(this, cache))
        && (d.RetryWithFreshToken? ==>
              r == Success(true) && tokenRetries == old(tokenRetries) + 1 &&
              cache.entries == old(cache.entries) - {TOKEN_CACHE_KEY} &&
              response == old(response) && responseBody == old(responseBody))
    {
      var d := Check(resp, tokenRetries);
      match d {
        case Finish =>
          r := Success(false);
        case Throw(e) =>
          r := Failure(e);
        case RetryWithFreshToken =>
          cache.Delete(TOKEN_CACHE_KEY);
          tokenRetries := tokenRetries + 1;
          r := Success(true);
      }
    }

    /** `getBearerToken()`. */
    method GetBearerToken(now: int) returns (r: Result<string>)
      requires Valid()
      modifies this, cache, transport
      ensures Valid()
      ensures (r, Snapshot()) == BearerToken(EnvAt(now), old(Snapshot()))
      decreases 1, 2
    {
      if cache.Has(TOKEN_CACHE_KEY, now) {
        var v := cache.Get(TOKEN_CACHE_KEY);
        return ReturnedToken(v);
      }
      var a := LoadResponse(Authenticate, now);
      if a.Failure? {
        return Failure(a.error);
      }
      responseBody := Some(a.value);
      match Prop(a.value, "token") {
        case None =>
          r := Failure(PhpFault(Warning));
        case Some(v) =>
          cache.Put(TOKEN_CACHE_KEY, v, now + TOKEN_LIFETIME);
          r := ReturnedToken(v);
      }
    }

    /** `get($url, $query)`. */
    method Get(url: string, query: PhpArray, now: int) returns (r: Result<PhpValue>)
      requires Valid()
      modifies this, cache, transport
      ensures Valid()
      ensures (r, Snapshot()) == Load(Api(ClientCall.Get(url, query)), EnvAt(now), old(Snapshot()))
    {
      r := LoadResponse(Api(ClientCall.Get(url, query)), now);
    }

    /** `post($url, $options)`. */
    method Post(url: string, options: PhpArray, now: int) returns (r: Result<PhpValue>)
      requires Valid()
      modifies this, cache, transport
      ensures Valid()
      ensures (r, Snapshot()) == Load(Api(ClientCall.Post(url, options)), EnvAt(now), old(Snapshot()))
    {
      r := LoadResponse(Api(ClientCall.Post(url, options)), now);
    }

    /** `put($url, $query, $options)`. */
    method Put(url: string, query: PhpArray, options: PhpArray, now: int) returns (r: Result<PhpValue>)
      requires Valid()
      modifies this, cache, transport
      ensures Valid()
      ensures (r, Snapshot()) == Load(Api(ClientCall.Put(url, query, options)), EnvAt(now), old(Snapshot()))
    {
      r := LoadResponse(Api(ClientCall.Put(url, query, options)), now);
    }

    /** `delete($url, $query)`. */
    method Delete(url: string, query: PhpArray, now: int) returns (r: Result<PhpValue>)
      requires Valid()
      modifies this, cache, transport
      ensures Valid()
      ensures (r, Snapshot()) == Load(Api(ClientCall.Delete(url, query)), EnvAt(now), old(Snapshot()))
    {
      r := LoadResponse(Api(ClientCall.Delete(url, query)), now);
    }
  }
}
