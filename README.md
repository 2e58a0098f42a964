# HelloCash client for Laravel, modelled in Dafny

This project models the decision logic of `drsdre/laravel-hellocash`, a Laravel client for the HelloCash mobile-money HTTP API. The transport, the token cache, the clock and the HMAC are replaced by abstract values. It covers:

- **`HelloCashClient`** (`client_spec.dfy`, `client.dfy`, `client_properties.dfy`):
  - the response loop of `loadResponse`;
  - the INVALID_TOKEN retry with its per-client budget;
  - the bearer-token cache with its 23-hour lifetime;
  - the `Authorization: Bearer <token>` header (section 2.1 of RFC 6750);
  - the classification of transport failures;
  - the request shapes of `get`/`post`/`put`/`delete`;
  - the TLS cipher pin.
- **How the client is modelled:**
  - The client is a class with the fields the PHP object updates (`tokenRetries`, `response`, `responseBody`). It shares a `Cache` object; a `Transport` object stands for the Guzzle client its constructor builds.
  - Each method is proved to produce exactly the result and the new state given by the pure specification `ClientSpec.Load` / `ClientSpec.BearerToken`.
  - The properties are proved about that specification.
- **`HelloCashException`** (`exceptions.dfy`):
  - the 23 domain codes;
  - the four transport-failure codes the client names, which the class does not declare (see "Findings");
  - the message format `Error <code>': <message>`, which is proved to read back.
- **`VerifyWebhookSignature`** (`signature.dfy`):
  - the middleware passes a request to the next handler exactly when its `X-Api-Hmac` header equals the HMAC-SHA256 (RFC 2104 over FIPS 180-4 SHA-256) of the raw content under the configured secret;
  - otherwise it aborts with 403;
  - a handler result that is not an `Illuminate\Http\Response` fails the declared return type;
  - the class is declared in the namespace `Laravel\Cashier\Http\Middleware`, while the controller registers `drsdre\HelloCash\Http\Middleware\VerifyWebhookSignature`, so the two are not wired together as shipped (see "Left out").
- **The notification `WebhookController`** (`notifications.dfy`):
  - GET is the verification handshake;
  - other methods are dispatched on `EventTypeId` through PHP's loose `switch`.
- **The event `WebhookController`** (`webhook_events.dfy`):
  - the condition under which the constructor registers the signature middleware;
  - the handler name `'handle' . Str::studly(...)` and the dispatch on it.
- **The request builders `Invoice`, `Airtime` and `Transfer`** (`requests.dfy`, `invoice.dfy`, `airtime.dfy`, `transfer.dfy`):
  - the defaults merged with `array_merge`;
  - the paths;
  - `Y-m-d` date formatting;
  - card-number normalisation;
  - the cancel query.
- **PHP semantics** (`php.dfy`): `array_merge`, truthiness, loose `==` (PHP 8), integer-to-string conversion, `strtolower`, the `(array)` cast, and coercion to `string` parameters.

**How the environment is modelled:**
- **Transport:** a script `nat -> Outcome`. The n-th request the transport sends gets `script(n)`, which is a response (kept as its decoded body, null when the body is empty or not JSON), a 5xx, a 4xx with its body, or another request failure.
- **PHP faults:** a warning (which Laravel turns into an `ErrorException`), a `TypeError` or another engine `Error` ends the call as a `PhpFault` where PHP's coercions raise one.
- **Clock:** counts seconds.
- **Cache:** a map from keys to values with an expiry time.

Where the code and its documentation disagree, the model follows the code:
- **Retry budget:** the budget is spent per client object, not per call.
- **Authentication and the budget:** the authentication request can spend the budget too.
- **Missing header or secret:** a missing `X-Api-Hmac` header or webhook secret is a TypeError, not a 403.
- **Undeclared handlers:** the notification controller dispatches to `handleCreateTransaction` and `handleRefundTransaction`. These are undeclared names, not `handleCreateTransfer`.
- **Error check:** `testForErrorAndInvalidTokenRetry` reads `ErrorCode` and `ErrorText` off the PSR-7 response object, which has no such properties. Both readings are modelled, and the rest of the model uses the corrected one that reads them off the decoded body (see "Findings").
- **Transport-failure codes:** the catch arms of `loadResponse` name four constants that `HelloCashException` does not declare. Both readings are modelled, and the rest of the model uses the corrected one in which they exist (see "Findings").
- **Class type-hints:** `Airtime` and `Transfer` type-hint a class `Client` in their own namespace, which does not exist. The model describes the calls their methods make, as though they were given a `HelloCashClient`.

## Model

| member | source | states |
|---|---|---|
| Php.MergeOverrides | src/Requests/Invoice.php:63-75 | `array_merge($defaults, $given)` under a string key holds the caller's value when given, the default otherwise |
| Php.MergeOverridesAll | src/Requests/Invoice.php:63-75 | the same for every string key at once |
| Php.StringArgument | src/Http/Middleware/VerifyWebhookSignature.php:70 | a value passed to a `string` parameter: null, arrays and objects are a TypeError; integers become their decimal text, which reads back as the integer |
| Php.IntStringRoundTrip | src/Requests/Invoice.php:122 | the decimal text of an integer parses back to that integer |
| Php.Interpolation | src/HelloCashClient.php:150-153 | a value concatenated into text: a warning iff an array, an engine Error iff an object; a string is kept and an integer becomes text that reads back as it |
| Php.IntArgument | src/Exceptions/HelloCashException.php:35 | a value passed to an `int` parameter: an integer passes, an integer string is read, arrays, objects and other strings are a TypeError |
| Php.ArrayMergeIntKeys | src/Requests/Invoice.php:63-75 | `array_merge` keeps the integer-keyed values of both arrays in order and renumbers their keys from 0 |
| Php.CastKey | src/WebhookController.php:67 | the `(array)` cast turns a property named by the decimal text of an integer into that integer key and keeps any other name |
| Php.NumericPropertyName | src/WebhookController.php:67 | the property named by an integer's decimal text becomes that integer key |
| Php.CastProps | src/WebhookController.php:67 | the cast keeps every property value in order under its cast name |
| Exceptions.DomainCodesConsecutive | src/Exceptions/HelloCashException.php:9-31 | the domain codes are 23 distinct integers, 0 to 22 in declaration order |
| Exceptions.CodeTextRoundTrip | src/Exceptions/HelloCashException.php:35 | the text of a code in a message determines the code |
| Exceptions.NewException | src/Exceptions/HelloCashException.php:33-36 | the stored code is the given code and the message is `Error <code>': <message>`; no third argument is kept |
| Exceptions.Construct | src/Exceptions/HelloCashException.php:33-36 | built from PHP values: an undefined message is a warning; it succeeds iff code and message interpolate and the code passes as an `int`, and then the code is the converted code and the message `Error <code text>': <message text>`; a string message and an integer code give `NewException` |
| Exceptions.MessageRoundTrip | src/Exceptions/HelloCashException.php:35 | the formatted message parses back to the code and the original message |
| Exceptions.MessageInjective | src/Exceptions/HelloCashException.php:35 | different messages or codes give different exception messages |
| ClientSpec.CurlOptions | src/HelloCashClient.php:60-88 | the cURL options are empty exactly when the SSL version text contains `NSS`, otherwise exactly `CURLOPT_SSL_CIPHER_LIST => TLSv1` |
| ClientSpec.AuthorizationHeader | src/HelloCashClient.php:105-110 | one header, `Authorization`, whose value is `Bearer ` followed by the token |
| ClientSpec.ApiRequest | src/HelloCashClient.php:232-299 | get and delete send the query, post the JSON body, put both; all carry the bearer header and the call's path |
| ClientSpec.AuthRequest | src/HelloCashClient.php:206-215 | POST `/authenticate` with principal, credentials and system from the configuration, no query, no header |
| ClientSpec.Check | src/HelloCashClient.php:171-192 | corrected, reading the decoded body: finish iff `ErrorCode` is unset, null or the integer 0; retry iff an error with `error.message == INVALID_TOKEN` while no retry is spent; otherwise throw what `new HelloCashException(ErrorText, ErrorCode, true)` gives with the body's values, or the fault building it raises; an integer code with a string text gives exactly that exception |
| ClientSpec.CheckAsWritten | src/HelloCashClient.php:171-192 | as written, reading `ErrorCode` off the PSR-7 response object: every response is accepted |
| ClientSpec.ErrorBodyAcceptedAsWritten | tests/Unit/ClientTest.php:51-72 | the test's body with `ErrorCode` 1 is accepted as written, and raises `HelloCashException("Some error occurred.", 1)` in the corrected check |
| ClientSpec.ErrorResponsesMissedAsWritten | src/HelloCashClient.php:173 | every error response is accepted as written and is not accepted by the corrected check |
| ClientSpec.Thrown | src/HelloCashClient.php:186 | the exception built is raised, or its construction's fault ends the call |
| ClientSpec.CheckNeverRaisesBalanceTooLow | src/HelloCashClient.php:173 | since an integer 0 counts as success, an integer code never raises BALANCE_TOO_LOW |
| ClientSpec.ClientExceptionMessage | src/HelloCashClient.php:145-154 | a warning iff `error.message` is an array, an engine Error iff an object; otherwise the message starts with `Invalid HelloCash account:` iff `error.message` is `FROM_INVALID`, with `Data Error: ` otherwise, and is exactly `Data Error: <message> <printed body>` without `error.message` |
| ClientSpec.Classify | src/HelloCashClient.php:129-161 | corrected, with the four codes declared: 5xx raises SERVER_ERROR; 403 WRONG_CREDENTIALS; another 4xx CLIENT_EXCEPTION with the `ClientExceptionMessage` text, or that message's fault; any other failure NETWORK_UNAVAILABLE |
| ClientSpec.ClassifyAsWritten | src/HelloCashClient.php:129-161 | as written: every catch arm ends in PHP's undefined-constant Error, except a 4xx whose message building faults first, which ends in that fault |
| ClientSpec.TransportFailureNeverRaisedAsWritten | src/HelloCashClient.php:133-160 | as written no transport failure raises a HelloCashException: where the corrected version raises one, the code as written raises an engine Error; where the corrected version faults, both agree |
| ClientSpec.ServerFailureAsWritten | src/HelloCashClient.php:129-133 | a 5xx ends in an engine Error as written, and raises `HelloCash Server Error: <message>` with SERVER_ERROR when corrected |
| ClientSpec.Attempt | src/HelloCashClient.php:122-126 | one pass never shrinks the requests sent, sends nothing only when the live cached token cannot be returned as a string, and asks for another pass only after sending and spending the unspent budget |
| ClientSpec.Load | src/HelloCashClient.php:120-162 | the loop keeps the budget at most 1, never lowers it, and sends a request unless the live cached token cannot be returned as a string |
| ClientSpec.Returned | src/HelloCashClient.php:120-128 | the body returned from `loadResponse(): object`: an object is returned unchanged, anything else is a TypeError |
| ClientSpec.ReturnedToken | src/HelloCashClient.php:200-203 | the token returned from `getBearerToken(): string`: strings unchanged, integers and booleans converted, null, arrays and objects a TypeError |
| ClientSpec.BearerToken | src/HelloCashClient.php:200-221 | a live cached token is returned, converted to a string or a TypeError, and nothing is sent or changed; otherwise the client authenticates and caches the `token` value as it is |
| Client.Cache.Put | src/HelloCashClient.php:218 | the entry under the key is replaced, the rest unchanged |
| Client.Cache.Delete | src/HelloCashClient.php:181 | the key is removed, the rest unchanged |
| Client.Cache.Get | src/HelloCashClient.php:203 | the value stored under the key |
| Client.Transport.Send | src/HelloCashClient.php:124 | the request is recorded and the scripted outcome for its position is returned |
| Client.HelloCashClient.constructor | src/HelloCashClient.php:58-66 | production base URI, the cURL options for the SSL version, no retry spent |
| Client.HelloCashClient.LoadResponse | src/HelloCashClient.php:120-162 | the do/while loop produces exactly the result and new state of `ClientSpec.Load` |
| Client.HelloCashClient.AttemptOnce | src/HelloCashClient.php:123-161 | one pass produces exactly `ClientSpec.Attempt` |
| Client.HelloCashClient.TestForErrorAndInvalidTokenRetry | src/HelloCashClient.php:171-192 | per `Check`: nothing changes on finish or throw, and a throw fails with the decided error; on retry the cached token is deleted and the budget goes from 0 to 1 |
| Client.HelloCashClient.GetBearerToken | src/HelloCashClient.php:200-221 | exactly the result and new state of `ClientSpec.BearerToken` |
| Client.HelloCashClient.Get | src/HelloCashClient.php:232-240 | `loadResponse` of a GET with the query |
| Client.HelloCashClient.Post | src/HelloCashClient.php:251-259 | `loadResponse` of a POST with the JSON body |
| Client.HelloCashClient.Put | src/HelloCashClient.php:271-280 | `loadResponse` of a PUT with query and JSON body |
| Client.HelloCashClient.Delete | src/HelloCashClient.php:291-299 | `loadResponse` of a DELETE with the query |
| ClientProperties.AuthenticationPassSendsOne | src/HelloCashClient.php:206-215 | an authentication pass sends exactly the authentication request |
| ClientProperties.AuthenticationSends | src/HelloCashClient.php:123-126 | authentication sends one more request than the retries it spends, so at most two |
| ClientProperties.BearerTokenSends | src/HelloCashClient.php:202-215 | obtaining a token sends nothing on a hit, and on a miss one more request than the retries spent |
| ClientProperties.ApiPassSends | src/HelloCashClient.php:232-240 | a pass of a public call sends its request plus what obtaining the token sends |
| ClientProperties.ApiSends | src/HelloCashClient.php:120-192 | a public call sends at most four requests, since the retry happens at most once per client |
| ClientProperties.ApiSendsAfterRetrySpent | src/HelloCashClient.php:178 | once the budget is spent, a call sends at most two requests |
| ClientProperties.LoadExtendsAttempt | src/HelloCashClient.php:123-126 | later passes only append to the requests sent |
| ClientProperties.ApiRequestCarriesCachedToken | src/HelloCashClient.php:105-110 | with a live cached token that converts to a string, the first request is the call with `Bearer <token>` |
| ClientProperties.ApiPassSendsCachedToken | src/HelloCashClient.php:232-240 | a pass with a usable cached token sends exactly the call with that token |
| ClientProperties.AcceptedResponseReturned | src/HelloCashClient.php:123-128 | a response with no error ends the call after one request, returning the decoded body unchanged when it is an object and a TypeError otherwise, and keeping response and body |
| ClientProperties.CacheMissAuthenticates | src/HelloCashClient.php:200-221 | on a miss: POST `/authenticate`, cache the `token` value as it is for exactly 23 hours (live iff not null), return it converted to a string |
| ClientProperties.IntegerTokenUsedAsText | src/HelloCashClient.php:220 | an integer `token` is returned as its decimal text, which reads back as the integer |
| ClientProperties.PoisonedTokenCached | src/HelloCashClient.php:202-220 | an array or object `token` is cached and then fails the `string` return type, and every public call while it lives fails the same way without sending |
| ClientProperties.MissingTokenProperty | src/HelloCashClient.php:218-220 | an authentication object without `token` fails with a warning, a body that is not an object with a TypeError; nothing is cached |
| ClientProperties.InvalidTokenRetries | src/HelloCashClient.php:173-184 | INVALID_TOKEN with the budget unspent deletes the cached token, spends the budget and repeats the call |
| ClientProperties.ErrorResponseRaised | src/HelloCashClient.php:185-187 | any other error response with an integer `ErrorCode` and a string `ErrorText` raises `HelloCashException(ErrorText, ErrorCode)` unwrapped; its code is never BALANCE_TOO_LOW and its message reads back |
| ClientProperties.MissingErrorTextIsWarning | src/HelloCashClient.php:186 | an error response without `ErrorText` fails with the warning reading it raises |
| ClientProperties.NoRetryOnceSpent | src/HelloCashClient.php:51 | the budget is never restored: a later INVALID_TOKEN is raised after one request |
| ClientProperties.AuthenticationSpendsBudget | src/HelloCashClient.php:206 | INVALID_TOKEN on the authentication request spends the same budget |
| ClientProperties.TwoInvalidTokensFail | src/HelloCashClient.php:173-187 | two INVALID_TOKEN answers send call, authentication, call again; the second is raised and the fresh token stays cached |
| ClientProperties.AttemptSuccessAccepted | src/HelloCashClient.php:123-128 | a pass that succeeds returns the object body of a response that reported no error |
| ClientProperties.SuccessAccepted | src/HelloCashClient.php:120-128 | whatever the number of passes, a success returns the last response's body, an object, and that response reported no error |
| ClientProperties.TransportFailureClassified | src/HelloCashClient.php:129-161 | a transport failure ends the call after one request with the classified exception, spending no retry and leaving the cache |
| ClientProperties.ClientFailureBody | src/HelloCashClient.php:134-145 | a 403 keeps the previous body, any other 4xx keeps its error body |
| Signature.VerifyHeader | src/Http/Middleware/VerifyWebhookSignature.php:70-75 | passes iff the header equals the HMAC character for character |
| Signature.Handle | src/Http/Middleware/VerifyWebhookSignature.php:48-61 | `$next` runs on the same request iff it is signed, and its result is returned iff it is an `Illuminate\Http\Response`, a TypeError otherwise; an unsigned request is aborted with 403; an argument TypeError iff the header or secret is missing or not a string |
| Signature.SignedRequestPasses | src/Http/Middleware/VerifyWebhookSignature.php:51-60 | a request carrying the HMAC of its content under the secret reaches `$next`, whatever the header name's case; its result is returned if it is an `Illuminate\Http\Response`, a TypeError otherwise |
| Signature.AlteredHeaderAborts | src/Http/Middleware/VerifyWebhookSignature.php:56-58 | changing any one character of a correct header aborts with 403 |
| Signature.UpperCaseHeaderRejected | src/Http/Middleware/VerifyWebhookSignature.php:72 | an upper-case hex digit fails against lower-case HMAC output |
| Signature.MissingInputIsTypeError | src/Http/Middleware/VerifyWebhookSignature.php:51-55 | a missing header or an unconfigured secret is a TypeError, not 403 |
| Signature.IntegerSecretUsedAsText | src/Http/Middleware/VerifyWebhookSignature.php:54 | an integer secret is used as its decimal text: a header with the HMAC under that text is signed |
| Signature.OtherResponseIsTypeError | src/Http/Middleware/VerifyWebhookSignature.php:48-61 | a signed request whose handler returns another response class fails the `Response` return type |
| Notifications.HandleNotification | src/WebhookController.php:41-51 | the create handler iff `EventTypeId == 1796` (loose); refund iff not that and `== 1797`; otherwise the plain event handler |
| Notifications.Handle | src/WebhookController.php:26-33 | GET verifies; any other method is a notification |
| Notifications.VerifyResponse | src/WebhookController.php:66-69 | an object's property values in order under their cast names (integer text becomes an integer key), or an array unchanged |
| Notifications.IntegerEventTypes | src/WebhookController.php:43-50 | 1796 creates, 1797 refunds, every other integer is a plain event |
| Notifications.NumericTextRoutesLikeNumber | src/WebhookController.php:43 | form text `"1796"` routes as the integer does |
| Notifications.UnknownEventTypeIsPlainEvent | src/WebhookController.php:48-49 | missing or non-numeric event types go to `handleEventNotification` |
| Notifications.TrueIsCreateTransfer | src/WebhookController.php:43-45 | `true` matches the first case, `false` none |
| WebhookEvents.MiddlewareIffSecret | src/Http/Controllers/WebhookController.php:20-25 | the middleware class is registered iff the secret is truthy: absent, `""` and `"0"` leave it off |
| WebhookEvents.ReplaceChar | src/Http/Controllers/WebhookController.php:36 | every occurrence of the character is replaced, nothing else changes |
| WebhookEvents.UcWords | src/Http/Controllers/WebhookController.php:36 | each character is upper-cased exactly when it starts a word |
| WebhookEvents.RemoveSpaces | src/Http/Controllers/WebhookController.php:36 | no blank remains and every other character of the input does |
| WebhookEvents.Studly | src/Http/Controllers/WebhookController.php:36 | no blank, dash or underscore remains, and no dot is introduced |
| WebhookEvents.HandlerName | src/Http/Controllers/WebhookController.php:36 | the name is `handle` followed by text with no dot, dash, underscore or blank |
| WebhookEvents.Capitalised | src/Http/Controllers/WebhookController.php:36 | the first letter upper-cased, the rest kept |
| WebhookEvents.ReplaceBetween | src/Http/Controllers/WebhookController.php:36 | replacing a separator between two words touches only the separator |
| WebhookEvents.UcWordsOfTwoWords | src/Http/Controllers/WebhookController.php:36 | two words separated by a blank are each capitalised |
| WebhookEvents.RemoveSpacesAppend | src/Http/Controllers/WebhookController.php:36 | removing blanks distributes over concatenation |
| WebhookEvents.RemoveAbsentSpaces | src/Http/Controllers/WebhookController.php:36 | text without blanks is unchanged |
| WebhookEvents.TwoWordName | src/Http/Controllers/WebhookController.php:36 | `a.b` names `handle` + capitalised `a` + capitalised `b` |
| WebhookEvents.OneWordName | src/Http/Controllers/WebhookController.php:36 | `w` names `handle` + capitalised `w` |
| WebhookEvents.SuccessMethod | src/Http/Controllers/WebhookController.php:66-69 | status 200 with content `Webhook Handled` |
| WebhookEvents.MissingMethod | src/Http/Controllers/WebhookController.php:77-80 | status 200 with no content |
| WebhookEvents.HandleCustomerUpdated | src/Http/Controllers/WebhookController.php:51-58 | always ends with `successMethod()` |
| WebhookEvents.EventType | src/Http/Controllers/WebhookController.php:35-36 | a type is read only from an array payload that has a `type` key |
| WebhookEvents.HandleWebhook | src/Http/Controllers/WebhookController.php:33-43 | an existing method (case-insensitive) is called, otherwise `missingMethod()`; a missing type or one naming `handleWebhook` is an error |
| WebhookEvents.CustomerUpdatedName | src/Http/Controllers/WebhookController.php:36 | `customer.updated` names `handleCustomerUpdated` |
| WebhookEvents.LowerCustomerUpdated | src/Http/Controllers/WebhookController.php:38 | that name matches the declared method without regard to case |
| WebhookEvents.CustomerUpdatedHandled | src/Http/Controllers/WebhookController.php:33-58 | a `customer.updated` event is answered 200 `Webhook Handled` |
| WebhookEvents.UnhandledTypeGetsEmptyReply | src/Http/Controllers/WebhookController.php:38-42 | a type without a handler gets the empty 200 response |
| WebhookEvents.WebhookTypeIsError | src/Http/Controllers/WebhookController.php:38-39 | type `webhook` reaches `handleWebhook` with an array: an error |
| WebhookEvents.WebhookName | src/Http/Controllers/WebhookController.php:36 | `webhook` names `handleWebhook` |
| WebhookEvents.LowerHandleWebhook | src/Http/Controllers/WebhookController.php:38 | that name matches the controller's own `handleWebhook` without regard to case |
| WebhookEvents.MissingTypeIsError | src/Http/Controllers/WebhookController.php:36 | a payload without `type` is an error |
| Requests.Defaults | src/Requests/Invoice.php:63-73 | eight distinct keys in order, with amount, description, from, currency `ETB`, tracenumber, expires, notifyfrom and notifyto holding their arguments |
| Requests.Parameters | src/Requests/Invoice.php:63-75 | every string key holds the caller's value if given, else the default; all eight default keys are present; currency is `ETB` unless overridden; the caller's integer-keyed values follow in order, renumbered from 0 |
| Requests.ExtraParameterAdded | src/Requests/Invoice.php:63-75 | a caller key that is not a default is sent as given |
| Requests.NoParametersKeepsDefaults | src/Requests/Invoice.php:60-75 | without caller parameters only the defaults are sent |
| Requests.GetById | src/Requests/Invoice.php:90-93 | a GET on the endpoint followed by the identifier, with no query |
| Invoice.Create | src/Requests/Invoice.php:52-78 | POST to `/invoices/` or `/invoices/validate` with the merged parameters |
| Invoice.Get | src/Requests/Invoice.php:90-93 | GET on `/invoices/` followed by the id, no query |
| Invoice.Search | src/Requests/Invoice.php:105-108 | GET on `/invoices/` with the query passed through |
| Invoice.Remove | src/Requests/Invoice.php:120-124 | DELETE on `/invoices/` followed by text that reads back as the code |
| Invoice.Removed | src/Requests/Invoice.php:122-123 | `true` whenever the client call returns (an object body), its exception or fault otherwise |
| Invoice.RemoveTargetsOneInvoice | src/Requests/Invoice.php:122 | different codes delete different paths |
| Invoice.InvoiceRequests | src/Requests/Invoice.php:77-122 | the requests on the wire: verb, path, query or JSON body, and the bearer header |
| Airtime.Create | src/Requests/Airtime.php:83-113 | sends nothing iff the expiration date does not parse; otherwise POST to `/airtime/` or `/airtime/validate` with the merged parameters |
| Airtime.Available | src/Requests/Airtime.php:123-125 | GET `/airtime/available` with an empty query |
| Airtime.AirtimeCurrency | src/Requests/Airtime.php:97-109 | currency is `ETB` unless the caller's parameters set it |
| Transfer.Get | src/Requests/Transfer.php:63-65 | GET on `/transfer/` followed by the id, no query |
| Transfer.TransactionsOf | src/Requests/Transfer.php:65-67 | exactly the `Transactions` array of the response; the client's failure passes through; a missing field is a warning, a non-array one a TypeError |
| Transfer.YearText | src/Requests/Transfer.php:79 | `Y`: at least four digits reading back as the year, with `-` before negative years |
| Transfer.TwoDigits | src/Requests/Transfer.php:79 | `m`/`d`: two digits reading back as the number |
| Transfer.FormatYmd | src/Requests/Transfer.php:79 | `Y-m-d` has its dashes three and six places from the end |
| Transfer.FormatYmdRoundTrip | src/Requests/Transfer.php:79 | the `Y-m-d` text parses back to the date |
| Transfer.FormatDate | src/Requests/Transfer.php:76-83 | a date becomes text that parses back to it; a string is returned unchanged |
| Transfer.FormatDateInjective | src/Requests/Transfer.php:79 | different dates format differently |
| Transfer.NormalizeNumber | src/Requests/Transfer.php:91-94 | only digits remain, and the result is no longer than the input |
| Transfer.NormalizeKeepsDigits | src/Requests/Transfer.php:93 | each digit occurs as often as in the input and nothing else occurs |
| Transfer.NormalizeAppend | src/Requests/Transfer.php:93 | order is kept: normalising a concatenation concatenates the normalised parts |
| Transfer.NormalizeDigits | src/Requests/Transfer.php:93 | a string of digits is unchanged |
| Transfer.NormalizeIdempotent | src/Requests/Transfer.php:91-94 | normalising twice equals normalising once |
| Transfer.NormalizeSpaced | src/Requests/Transfer.php:93 | a blank between two strings disappears |
| Transfer.NormalizeGroups | src/Requests/Transfer.php:93 | blank-separated digit groups are joined |
| Transfer.NormalizeCardNumber | tests/Unit/AccountTest.php:20-28 | `4111 1111 1111 1111` becomes `4111111111111111` |
| Transfer.CancelQuery | src/Requests/Transfer.php:106-110 | `Amount` always; `ActionUser` iff the action user is truthy, with its value; nothing else |
| Transfer.ActionUserOmitted | src/Requests/Transfer.php:107 | null, `''` and `'0'` omit `ActionUser`; any other string sends it |
| Transfer.CancelAsWritten | src/Requests/Transfer.php:104-111 | as written: DELETE on `/transfer/<id>` whose query holds the merged array under the key `query` |
| Transfer.CancelAsWrittenLosesAmount | src/Requests/Transfer.php:109-111 | as written, the query on the wire has one entry, and neither `Amount` nor `ActionUser` |
| Transfer.Cancel | src/Requests/Transfer.php:104-111 | corrected: DELETE on `/transfer/<id>` with the merged array as the query |
| Transfer.CancelSendsAmount | tests/Unit/TransferTest.php:54-60 | corrected: `Amount` and, iff truthy, `ActionUser` reach the API as query keys |

## Left out

- **HTTP, Guzzle and `json_decode`:** the transport delivers decoded bodies; a response is kept only as its body, null when the body is empty or not JSON. `JSON_BIGINT_AS_STRING` is not modelled: integers are unbounded.
- **Integer coercion:** an `int` argument reads only strings of an optional sign followed by digits. Leading or trailing blanks, decimals and exponents are treated as a TypeError.
- **Laravel facades:** the `Cache`, `config` and `Log` facades and `curl_version()` become the `Cache` class, a configuration record, nothing, and an SSL-version parameter. `Log::error` has no effect on any result.
- **Clock:** the abstract clock counts seconds. Carbon's `addHours(23)` is `now + 23 * 3600`.
- **HMAC-SHA256:** it is a function parameter; no cryptography is modelled. The comparison is `!==`, which is not constant-time, and no timing property is claimed.
- **Date parsing and RFC 3339 formatting:**
  - DateTime parsing and RFC 3339 formatting (section 5.6 of RFC 3339) are not modelled.
  - `Invoice::create` receives the rendered `expires` text.
  - `Airtime::create` receives the parse result as an option, where `None` means `createFromFormat` failed.
  - Calendar validity of a `Y-m-d` date is reduced to month 1-12 and day 1-31.
- WebhookEvents.Studly: states only that no separator remains. The exact result is stated by `TwoWordName` and `OneWordName` for dotted or plain words of letters. `Str::studly`'s cache and non-ASCII case mapping are not modelled.
- WebhookEvents.HandleCustomerUpdated: the user lookup `getUserByStripeId` and `updateDefaultPaymentMethodFromStripe` are not part of this model. The model answers with `successMethod()` whatever the lookup finds. With Laravel's base controller as shipped, the undefined lookup would throw `BadMethodCallException` instead.
- **Notification handlers:** `handleCreateTransaction`, `handleRefundTransaction` and `handleEventNotification` are not declared by the abstract controller, so only which one is selected is modelled. The `Connection` request that answers `getAuthorizationCode` is not part of this model.
- **Broken paths:**
  - `Airtime::get` calls a nonexistent `client->request`.
  - `Transfer::create` calls an undefined `getKey`.
  - `Transfer::getSystem` and `BaseRequest::getClientResponse` are not used by the modelled calls.
  - These are left out.
- **Middleware class name:** the event controller imports `drsdre\HelloCash\Http\Middleware\VerifyWebhookSignature` (src/Http/Controllers/WebhookController.php:11), but the middleware file declares namespace `Laravel\Cashier\Http\Middleware`. As shipped, Laravel would fail to resolve the registered class. The model states when the constructor registers it (`MiddlewareIffSecret`) and what the middleware decides (`Signature.Handle`), not the failed resolution.
- Client.HelloCashClient.constructor: the source builds a new Guzzle client of the given client's class with only `base_uri` and the cURL options, so the given client's handler and other options are dropped. The model's `Transport` stands for that freshly built client; the dropped configuration is not modelled.
- TransportFailureClassified: it states the corrected classification, in which the four transport-failure codes exist. As written, every transport failure ends in PHP's undefined-constant Error (`ClassifyAsWritten`, see "Findings").
- **Floating-point numbers:** `json_decode` returns a float for a JSON number with a fraction or exponent, and the model has no float value. Three reads are affected:
  - an `ErrorCode` of `0.0` is `!== 0`, so it is an error whose code is 0 (BALANCE_TOO_LOW); `CheckNeverRaisesBalanceTooLow` covers integer codes only;
  - a float `token` would be cached and converted to its text;
  - a float webhook `type` would be converted to text by `str_replace` in `handleWebhook`.
- **Wiring:** the service provider, facades, `HelloCash`, `BaseRequest`, `Connection` and `Account` are not part of this model.
- **Status constants:** the `STATUS_*` constants of `Invoice`, `Transfer` and `HelloCashClient` are not used by any modelled operation.
- **Concurrency:** concurrent use of the shared cache is not modelled. Each client sees the cache as a sequence of its own reads and writes.
- **Integers:** PHP's 64-bit integers are unbounded here. Only the decimal text of an integer matters to the model, and it is the same.
- **Numeric strings in loose comparison:** these are limited to an optional sign followed by digits. Leading blanks, decimals and exponents are not modelled.

## Findings

| source | as written | input that shows it | evidently intended | confidence | as-written member | corrected member |
|---|---|---|---|---|---|---|
| src/Requests/Transfer.php:109-111 | `cancel` passes `[query => array_merge(...)]` as the `$query` argument of `HelloCashClient::delete`, which puts its argument under the `query` option itself, so the amount is sent as `query[Amount]` | `cancel('252b950e-27f2-4300-ada1-4dedd7c17904', 30, 'Customer name')`: the request's query holds the single key `query`; `Amount` and `ActionUser` are absent (tests/Unit/TransferTest.php:59-60 expects `Amount=30` and `ActionUser`) | pass the merged array itself as `delete`'s `$query` | medium (not executed) | Transfer.CancelAsWritten | Transfer.Cancel |
| src/HelloCashClient.php:173-186 | `testForErrorAndInvalidTokenRetry` reads `ErrorCode` and `ErrorText` off `$this->response`, the Guzzle PSR-7 response, which has no such properties; `isset` never holds, so no error is detected, no INVALID_TOKEN retry happens, and an error body is returned as a success | the body `{"ErrorCode":1,"ErrorText":"Some error occurred."}` of tests/Unit/ClientTest.php:58-71 is returned by `Invoice::get`, where the test expects a HelloCashException | read both fields off the decoded body `$this->response_body` | high (not executed) | ClientSpec.CheckAsWritten | ClientSpec.Check |
| src/HelloCashClient.php:129-161 | the catch arms of `loadResponse` throw `new HelloCashException($message, HelloCashException::SERVER_ERROR, true)` and likewise with `WRONG_CREDENTIALS`, `CLIENT_EXCEPTION` and `NETWORK_UNAVAILABLE`; src/Exceptions/HelloCashException.php:9-31 declares none of these, so evaluating the argument raises PHP's undefined-constant Error | any 5xx, e.g. `ServerFailure("Internal Server Error")`: PHP raises an Error instead of a HelloCashException with SERVER_ERROR | declare the four constants on HelloCashException | high (not executed) | ClientSpec.ClassifyAsWritten | ClientSpec.Classify |
