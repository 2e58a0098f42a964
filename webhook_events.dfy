/**
 * The event WebhookController: it registers the signature middleware only
 * when a webhook secret is configured, derives a handler method name from
 * the payload's `type` (`'handle' . Str::studly(...)`), calls that method when
 * the controller has it (method names compare case-insensitively) and
 * otherwise answers with an empty response.
 */
module WebhookEvents {
  import opened Php
  import Signature

  /** The constructor's condition for `$this->middleware(VerifyWebhookSignature::class)`. */
  predicate RegistersSignatureMiddleware(config: map<string, PhpValue>) {
    Truthy(Signature.ConfigValue(config, Signature.WEBHOOK_SECRET))
  }

  /** A missing, empty or `"0"` secret leaves the middleware off; any other text turns it on. */
  lemma MiddlewareIffSecret(config: map<string, PhpValue>, secret: string)
    ensures !RegistersSignatureMiddleware(map[])
    ensures RegistersSignatureMiddleware(config[Signature.WEBHOOK_SECRET := Str(secret)]) <==>
      secret != "" && secret != "0"
  {
  }

  // ---------------------------------------------------------------------
  // Handler names
  // ---------------------------------------------------------------------

  /** `str_replace($from, $to, $s)` for single characters. */
  function ReplaceChar(s: string, from: char, to: char): (r: string)
    ensures |r| == |s|
    ensures forall i :: 0 <= i < |s| ==> r[i] == if s[i] == from then to else s[i]
  {
    seq(|s|, i requires 0 <= i < |s| => if s[i] == from then to else s[i])
  }

  /** The characters `ucwords` starts a new word after. */
  predicate WordDelimiter(c: char) {
    c == ' ' || c == '\t' || c == '\r' || c == '\n' || c == '\U{000C}' || c == '\U{000B}'
  }

  /** The character `ucwords` leaves at index `i`: upper-cased at the start of a word. */
  function UcWordsAt(s: string, i: nat): char
    requires i < |s|
  {
    if i == 0 || WordDelimiter(s[i - 1]) then UpperChar(s[i]) else s[i]
  }

  /** `ucwords($s)`: the first letter of every word upper-cased. */
  function UcWords(s: string): (r: string)
    ensures |r| == |s|
    ensures forall i :: 0 <= i < |s| ==> r[i] == UcWordsAt(s, i)
  {
    seq(|s|, i requires 0 <= i < |s| => UcWordsAt(s, i))
  }

  /** `str_replace(' ', '', $s)`. */
  function RemoveSpaces(s: string): (r: string)
    ensures ' ' !in r
    ensures |r| <= |s|
    ensures forall c :: c in r <==> c in s && c != ' '
  {
    if s == [] then []
    else if s[0] == ' ' then RemoveSpaces(s[1..])
    else
      var t := RemoveSpaces(s[1..]);
      assert forall c :: c in s <==> c == s[0] || c in s[1..];
      [s[0]] + t
  }

  /** `Str::studly($s)`: dashes and underscores become word breaks, words are capitalised and joined. */
  function Studly(s: string): (r: string)
    ensures ' ' !in r && '-' !in r && '_' !in r
    ensures '.' !in s ==> '.' !in r
  {
    var dashless := ReplaceChar(s, '-', ' ');
    var words := ReplaceChar(dashless, '_', ' ');
    var capitalised := UcWords(words);
    forall i | 0 <= i < |capitalised|
      ensures capitalised[i] != '-' && capitalised[i] != '_'
      ensures '.' !in s ==> capitalised[i] != '.'
    {
      assert dashless[i] != '-';
      assert words[i] != '-' && words[i] != '_';
      assert capitalised[i] == UcWordsAt(words, i);
      assert '.' !in s ==> s[i] != '.' && dashless[i] != '.' && words[i] != '.';
    }
    RemoveSpaces(capitalised)
  }

  /** `'handle' . Str::studly(str_replace('.', '_', $type))`. */
  function HandlerName(eventType: string): (r: string)
    ensures StartsWith(r, "handle")
    ensures forall c :: c in r[6..] ==> c != '.' && c != '-' && c != '_' && c != ' '
  {
    var u := ReplaceChar(eventType, '.', '_');
    assert '.' !in u by {
      forall i | 0 <= i < |u| ensures u[i] != '.' {
      }
    }
    var r := "handle" + Studly(u);
    assert r[6..] == Studly(u);
    r
  }

  /** A word of an event type: not empty, and free of separators and white space. */
  predicate PlainWord(w: string) {
    |w| > 0 && forall i :: 0 <= i < |w| ==> w[i] != '.' && w[i] != '-' && w[i] != '_' && !WordDelimiter(w[i])
  }

  /** The word with its first letter upper-cased. */
  function Capitalised(w: string): (r: string)
    requires |w| > 0
    ensures |r| == |w| && r[0] == UpperChar(w[0]) && r[1..] == w[1..]
  {
    [UpperChar(w[0])] + w[1..]
  }

  /** Replacing a character that occurs only between two words touches only that separator. */
  lemma ReplaceBetween(a: string, c: char, b: string, from: char, to: char)
    requires forall i :: 0 <= i < |a| ==> a[i] != from
    requires forall i :: 0 <= i < |b| ==> b[i] != from
    ensures ReplaceChar(a + [c] + b, from, to) == a + [if c == from then to else c] + b
  {
    var s := a + [c] + b;
    var r := ReplaceChar(s, from, to);
    var e := a + [if c == from then to else c] + b;
    forall i | 0 <= i < |s| ensures r[i] == e[i] {
      if i < |a| {
        assert s[i] == a[i];
      } else if i > |a| {
        assert s[i] == b[i - |a| - 1];
      }
    }
  }

  /** With its words separated by a single blank, `ucwords` capitalises each of two plain words. */
  lemma UcWordsOfTwoWords(a: string, b: string)
    requires PlainWord(a) && PlainWord(b)
    ensures UcWords(a + " " + b) == Capitalised(a) + " " + Capitalised(b)
  {
    var s := a + " " + b;
    var r := UcWords(s);
    var e := Capitalised(a) + " " + Capitalised(b);
    forall i | 0 <= i < |s| ensures r[i] == e[i] {
      assert r[i] == UcWordsAt(s, i);
      if i == 0 {
        assert s[0] == a[0] && e[0] == Capitalised(a)[0];
      } else if i < |a| {
        assert s[i - 1] == a[i - 1] && s[i] == a[i] && e[i] == Capitalised(a)[i];
      } else if i == |a| {
        assert s[i] == ' ' && e[i] == ' ';
      } else if i == |a| + 1 {
        assert s[i - 1] == ' ' && s[i] == b[0] && e[i] == Capitalised(b)[0];
      } else {
        assert s[i - 1] == b[i - |a| - 2] && s[i] == b[i - |a| - 1] && e[i] == Capitalised(b)[i - |a| - 1];
      }
    }
  }

  lemma {:induction false} RemoveSpacesAppend(a: string, b: string)
    ensures RemoveSpaces(a + b) == RemoveSpaces(a) + RemoveSpaces(b)
  {
    if a == [] {
      assert a + b == b;
    } else {
      assert (a + b)[0] == a[0];
      assert (a + b)[1..] == a[1..] + b;
      RemoveSpacesAppend(a[1..], b);
    }
  }

  lemma {:induction false} RemoveAbsentSpaces(s: string)
    requires ' ' !in s
    ensures RemoveSpaces(s) == s
  {
    if s != [] {
      RemoveAbsentSpaces(s[1..]);
    }
  }

  /** A capitalised plain word has no blank. */
  lemma CapitalisedHasNoBlank(w: string)
    requires PlainWord(w)
    ensures ' ' !in Capitalised(w)
  {
    var r := Capitalised(w);
    forall i | 0 <= i < |r| ensures r[i] != ' ' {
      if i > 0 {
        assert r[i] == w[i];
      }
    }
  }

  /** A dotted two-word type `a.b` names `handle` followed by both words capitalised. */
  lemma TwoWordName(a: string, b: string)
    requires PlainWord(a) && PlainWord(b)
    ensures HandlerName(a + "." + b) == "handle" + Capitalised(a) + Capitalised(b)
  {
    ReplaceBetween(a, '.', b, '.', '_');
    ReplaceBetween(a, '_', b, '-', ' ');
    ReplaceBetween(a, '_', b, '_', ' ');
    assert ReplaceChar(ReplaceChar(ReplaceChar(a + "." + b, '.', '_'), '-', ' '), '_', ' ') == a + " " + b;
    UcWordsOfTwoWords(a, b);
    CapitalisedHasNoBlank(a);
    CapitalisedHasNoBlank(b);
    RemoveSpacesAppend(Capitalised(a) + " ", Capitalised(b));
    RemoveSpacesAppend(Capitalised(a), " ");
    RemoveAbsentSpaces(Capitalised(a));
    RemoveAbsentSpaces(Capitalised(b));
    assert Studly(a + "_" + b) == Capitalised(a) + Capitalised(b);
  }

  /** A one-word type names `handle` followed by the capitalised word. */
  lemma OneWordName(w: string)
    requires PlainWord(w)
    ensures HandlerName(w) == "handle" + Capitalised(w)
  {
    ReplaceBetween(w[..|w| - 1], w[|w| - 1], [], '.', '_');
    ReplaceBetween(w[..|w| - 1], w[|w| - 1], [], '-', ' ');
    ReplaceBetween(w[..|w| - 1], w[|w| - 1], [], '_', ' ');
    assert w[..|w| - 1] + [w[|w| - 1]] + [] == w;
    var u := UcWords(w);
    forall i | 0 < i < |w| ensures u[i] == w[i] {
      assert !WordDelimiter(w[i - 1]) && u[i] == UcWordsAt(w, i);
    }
    assert u == Capitalised(w);
    CapitalisedHasNoBlank(w);
    RemoveAbsentSpaces(Capitalised(w));
  }

  // ---------------------------------------------------------------------
  // Dispatch
  // ---------------------------------------------------------------------

  /** A response: status and content. */
  datatype Reply = Reply(status: int, content: string)

  /** What `handleWebhook` ends in: a response, or a PHP error. */
  datatype WebhookResult = Replied(reply: Reply) | Error

  /** `new Response($content = '', $status = 200)`. */
  function NewResponse(content: string := "", status: int := 200): Reply {
    Reply(status, content)
  }

  /** `successMethod()`: 200 with `Webhook Handled`. */
  function SuccessMethod(): (r: Reply)
    ensures r.status == 200 && r.content == "Webhook Handled"
  {
    NewResponse("Webhook Handled", 200)
  }

  /** `missingMethod()`: the default response, 200 with no content. */
  function MissingMethod(): (r: Reply)
    ensures r.status == 200 && r.content == ""
  {
    NewResponse()
  }

  /** `handleCustomerUpdated($payload)`: whatever the user lookup finds, it answers with `successMethod()`. */
  function HandleCustomerUpdated(payload: PhpArray): (r: Reply)
    ensures r == SuccessMethod()
  {
    SuccessMethod()
  }

  /** The controller's own methods whose names start with `handle`, lower-cased. */
  const HANDLE_WEBHOOK: string := "handlewebhook"
  const HANDLE_CUSTOMER_UPDATED: string := "handlecustomerupdated"

  /**
   * `$payload['type']` as the string `str_replace` works on: `None` (a PHP
   * error) when the payload is not an array, has no `type`, or its `type` is
   * an array.
   */
  function EventType(payload: PhpValue): (r: Option<string>)
    ensures r.Some? ==> payload.Arr? && Lookup(payload.entries, StrKey("type")).Some?
  {
    if !payload.Arr? then None
    else
      match Lookup(payload.entries, StrKey("type"))
      case None => None
      case Some(Str(s)) => Some(s)
      case Some(Int(i)) => Some(IntToString(i))
      case Some(Bool(b)) => Some(if b then "1" else "")
      case Some(Null) => Some("")
      case Some(_) => None
  }

  /**
   * `handleWebhook($request)` on the decoded JSON payload: the named handler
   * when the controller has a method by that name (compared without regard to
   * case), `missingMethod()` otherwise. `handleWebhook` itself takes a Request,
   * so a payload naming it is a TypeError.
   */
  function HandleWebhook(payload: PhpValue): (r: WebhookResult)
    ensures EventType(payload).None? ==> r.Error?
    ensures EventType(payload).Some? ==>
      var name := Lower(HandlerName(EventType(payload).value));
      && (name == HANDLE_CUSTOMER_UPDATED ==> r == Replied(SuccessMethod()))
      && (name == HANDLE_WEBHOOK ==> r.Error?)
      && (name != HANDLE_CUSTOMER_UPDATED && name != HANDLE_WEBHOOK ==> r == Replied(MissingMethod()))
  {
    match EventType(payload)
    case None => Error
    case Some(t) =>
      var name := Lower(HandlerName(t));
      if name == HANDLE_CUSTOMER_UPDATED then Replied(HandleCustomerUpdated(payload.entries))
      else if name == HANDLE_WEBHOOK then Error
      else Replied(MissingMethod())
  }

  /** `customer.updated` names `handleCustomerUpdated`. */
  lemma CustomerUpdatedName()
    ensures HandlerName("customer.updated") == "handleCustomerUpdated"
  {
    var a, b := "customer", "updated";
    assert PlainWord(a) && PlainWord(b);
    TwoWordName(a, b);
    assert "handle" + Capitalised(a) + Capitalised(b) == "handleCustomerUpdated";
    assert a + "." + b == "customer.updated";
  }

  /** A `customer.updated` event is handled and answered with `Webhook Handled`. */
  lemma CustomerUpdatedHandled(payload: PhpArray)
    requires Lookup(payload, StrKey("type")) == Some(Str("customer.updated"))
    ensures HandleWebhook(Arr(payload)) == Replied(Reply(200, "Webhook Handled"))
  {
    CustomerUpdatedName();
    LowerCustomerUpdated();
    assert EventType(Arr(payload)) == Some("customer.updated");
  }

  lemma LowerCustomerUpdated()
    ensures Lower("handleCustomerUpdated") == HANDLE_CUSTOMER_UPDATED
  {
  }

  /** An event type the controller has no handler for gets the empty 200 response. */
  lemma UnhandledTypeGetsEmptyReply(payload: PhpArray)
    requires Lookup(payload, StrKey("type")) == Some(Str("invoice.paid"))
    ensures HandleWebhook(Arr(payload)) == Replied(Reply(200, ""))
  {
    var a, b := "invoice", "paid";
    assert PlainWord(a) && PlainWord(b);
    TwoWordName(a, b);
    assert a + "." + b == "invoice.paid";
    assert |HandlerName("invoice.paid")| == 17;
  }

  /** A type naming `handleWebhook` reaches a method that expects a Request: an error. */
  lemma WebhookTypeIsError(payload: PhpArray)
    requires Lookup(payload, StrKey("type")) == Some(Str("webhook"))
    ensures HandleWebhook(Arr(payload)).Error?
  {
    WebhookName();
    LowerHandleWebhook();
    assert EventType(Arr(payload)) == Some("webhook");
  }

  /** `webhook` names `handleWebhook`. */
  lemma WebhookName()
    ensures HandlerName("webhook") == "handleWebhook"
  {
    var w := "webhook";
    assert PlainWord(w);
    OneWordName(w);
    assert "handle" + Capitalised(w) == "handleWebhook";
  }

  lemma LowerHandleWebhook()
    ensures Lower("handleWebhook") == HANDLE_WEBHOOK
  {
  }

  /** A payload without `type` is an error, not a reply. */
  lemma MissingTypeIsError(payload: PhpArray)
    requires Lookup(payload, StrKey("type")).None?
    ensures HandleWebhook(Arr(payload)).Error?
  {
  }
}
