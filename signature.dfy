/**
 * The VerifyWebhookSignature middleware: a webhook request passes to the next
 * handler only when its `X-Api-Hmac` header is exactly the lower-case hex
 * HMAC-SHA256 (RFC 2104 over FIPS 180-4 SHA-256) of the raw request content
 * keyed with the configured webhook secret; otherwise the request is aborted
 * with 403. The HMAC itself is a parameter: `hmac(data, key)` stands for
 * `hash_hmac('sha256', data, key, false)`.
 */
module Signature {
  import opened Php

  const HMAC_HEADER: string := "X-Api-Hmac"
  const WEBHOOK_SECRET: string := "hellocash.webhook_secret"
  const FORBIDDEN: int := 403

  /** An incoming request: its raw content and its headers, keyed by lower-case name. */
  datatype WebhookRequest = WebhookRequest(content: string, headers: map<string, string>)

  /** `$request->header($name)`: header names compare case-insensitively; `None` when absent. */
  function Header(req: WebhookRequest, name: string): Option<string> {
    if Lower(name) in req.headers then Some(req.headers[Lower(name)]) else None
  }

  /** `$config->get($key)`: `Null` when the key is not configured. */
  function ConfigValue(config: map<string, PhpValue>, key: string): PhpValue {
    if key in config then config[key] else Null
  }

  /** Lower-case hexadecimal, the form `hash_hmac` returns when its last argument is false. */
  predicate LowerHex(s: string) {
    forall i :: 0 <= i < |s| ==> IsDigit(s[i]) || 'a' <= s[i] <= 'f'
  }

  /** `verifyHeader($payload, $header_hmac, $secret)`: passes (true) or throws a SignatureException (false). */
  function VerifyHeader(payload: string, headerHmac: string, secret: string,
                        hmac: (string, string) -> string): (ok: bool)
    ensures ok <==> |headerHmac| == |hmac(payload, secret)| &&
                    forall i :: 0 <= i < |headerHmac| ==> headerHmac[i] == hmac(payload, secret)[i]
  {
    headerHmac == hmac(payload, secret)
  }

  /** What the middleware does with a request. */
  datatype Gate<R> =
    | Passed(response: R)     // `$next($request)` ran and its response is returned
    | Aborted(status: int)    // `abort(403)`: `$next` is not called
    | ArgumentTypeError       // the header or the secret cannot be passed as a string
    | ReturnTypeError         // `$next` ran but did not return an `Illuminate\Http\Response`

  /**
   * `handle($request, $next): Response`: the raw content, the `X-Api-Hmac`
   * header and the configured secret go to `verifyHeader` unchanged; a
   * mismatch aborts with 403, a match calls `$next` on the same request and
   * returns its result when it is an `Illuminate\Http\Response`
   * (`isResponse`); any other result fails the declared return type.
   */
  function Handle<R>(req: WebhookRequest, config: map<string, PhpValue>,
                     hmac: (string, string) -> string, next: WebhookRequest -> R,
                     isResponse: R -> bool): (g: Gate<R>)
    ensures g.Passed? <==> Signed(req, config, hmac) && isResponse(next(req))
    ensures g.ReturnTypeError? <==> Signed(req, config, hmac) && !isResponse(next(req))
    ensures g.Passed? ==> g.response == next(req)
    ensures g.Aborted? <==> !g.ArgumentTypeError? && !Signed(req, config, hmac)
    ensures g.Aborted? ==> g.status == FORBIDDEN
    ensures g.ArgumentTypeError? <==> Header(req, HMAC_HEADER).None? || StringArgument(ConfigValue(config, WEBHOOK_SECRET)).None?
  {
    var header := Header(req, HMAC_HEADER);
    var secret := StringArgument(ConfigValue(config, WEBHOOK_SECRET));
    if header.None? || secret.None? then ArgumentTypeError
    else if VerifyHeader(req.content, header.value, secret.value, hmac) then
      var response := next(req);
      if isResponse(response) then Passed(response) else ReturnTypeError
    else Aborted(FORBIDDEN)
  }

  /** The request carries the HMAC of its content under the configured secret. */
  predicate Signed(req: WebhookRequest, config: map<string, PhpValue>, hmac: (string, string) -> string) {
    var header := Header(req, HMAC_HEADER);
    var secret := StringArgument(ConfigValue(config, WEBHOOK_SECRET));
    header.Some? && secret.Some? && header.value == hmac(req.content, secret.value)
  }

  /**
   * A request signed with the configured secret reaches the next handler,
   * whatever case its header name uses; the handler's result is returned when
   * it is an `Illuminate\Http\Response` and is a TypeError otherwise.
   */
  lemma SignedRequestPasses<R>(content: string, headerName: string, secret: string,
                               hmac: (string, string) -> string, next: WebhookRequest -> R,
                               isResponse: R -> bool)
    requires Lower(headerName) == Lower(HMAC_HEADER)
    ensures var req := WebhookRequest(content, map[Lower(headerName) := hmac(content, secret)]);
      Handle(req, map[WEBHOOK_SECRET := Str(secret)], hmac, next, isResponse)
      == if isResponse(next(req)) then Passed(next(req)) else ReturnTypeError
  {
  }

  /** Changing any one character of a correct header makes the middleware abort with 403. */
  lemma {:induction false} AlteredHeaderAborts<R>(req: WebhookRequest, config: map<string, PhpValue>,
                                                  hmac: (string, string) -> string, next: WebhookRequest -> R,
                                                  isResponse: R -> bool, i: nat, c: char)
    requires Signed(req, config, hmac)
    requires i < |Header(req, HMAC_HEADER).value| && Header(req, HMAC_HEADER).value[i] != c
    ensures var h := Header(req, HMAC_HEADER).value;
      Handle(req.(headers := req.headers[Lower(HMAC_HEADER) := h[i := c]]), config, hmac, next, isResponse) == Aborted(FORBIDDEN)
  {
    var h := Header(req, HMAC_HEADER).value;
    var req' := req.(headers := req.headers[Lower(HMAC_HEADER) := h[i := c]]);
    assert Header(req', HMAC_HEADER) == Some(h[i := c]);
    assert h[i := c][i] != h[i];
  }

  /**
   * The comparison is exact: when the HMAC is lower-case hex, a header with an
   * upper-case hex digit is rejected even if it names the same bytes.
   */
  lemma UpperCaseHeaderRejected(payload: string, headerHmac: string, secret: string,
                                hmac: (string, string) -> string, i: nat)
    requires LowerHex(hmac(payload, secret))
    requires i < |headerHmac| && 'A' <= headerHmac[i] <= 'F'
    ensures !VerifyHeader(payload, headerHmac, secret, hmac)
  {
    var expected := hmac(payload, secret);
    if i < |expected| {
      assert headerHmac[i] != expected[i];
    }
  }

  /** Without the header, or without a usable secret, verification cannot even start: a TypeError, not 403. */
  lemma MissingInputIsTypeError<R>(content: string, header: Option<string>, config: map<string, PhpValue>,
                                   hmac: (string, string) -> string, next: WebhookRequest -> R,
                                   isResponse: R -> bool)
    requires header.None? || WEBHOOK_SECRET !in config
    ensures var headers := if header.Some? then map[Lower(HMAC_HEADER) := header.value] else map[];
      Handle(WebhookRequest(content, headers), config, hmac, next, isResponse).ArgumentTypeError?
  {
  }

  /** An integer secret is used as its decimal text. */
  lemma IntegerSecretUsedAsText<R>(req: WebhookRequest, n: int,
                                   hmac: (string, string) -> string, next: WebhookRequest -> R,
                                   isResponse: R -> bool)
    requires Header(req, HMAC_HEADER) == Some(hmac(req.content, IntToString(n)))
    ensures Signed(req, map[WEBHOOK_SECRET := Int(n)], hmac)
    ensures isResponse(next(req)) ==> Handle(req, map[WEBHOOK_SECRET := Int(n)], hmac, next, isResponse) == Passed(next(req))
  {
  }

  /**
   * A signed request whose handler answers with a response of another class
   * (such as the `Symfony\Component\HttpFoundation\Response` the event
   * controller builds) fails the middleware's return type after the handler
   * has run.
   */
  lemma OtherResponseIsTypeError<R>(req: WebhookRequest, config: map<string, PhpValue>,
                                    hmac: (string, string) -> string, next: WebhookRequest -> R,
                                    isResponse: R -> bool)
    requires Signed(req, config, hmac) && !isResponse(next(req))
    ensures Handle(req, config, hmac, next, isResponse) == ReturnTypeError
  {
  }
}
