/**
 * What the request classes share: the parameter array that
 * `Invoice::create` and `Airtime::create` both build (eight defaults merged
 * with the caller's optional parameters by `array_merge`, so a caller's string
 * key overrides the default of that name and every other caller key is
 * added), and the GET of one resource by its identifier.
 */
module Requests {
  import opened Php
  import opened ClientSpec

  /** The only currency the API accepts (`Invoice::CURRENCY`, the literal in `Airtime::create`). */
  const CURRENCY: string := "ETB"

  /** The names of the defaults, in the order the array literal lists them. */
  const DEFAULT_KEYS: seq<string> :=
    ["amount", "description", "from", "currency", "tracenumber", "expires", "notifyfrom", "notifyto"]

  /**
   * The call `get` of a request class makes for one resource: a GET on the
   * class's endpoint followed by the identifier, with no query.
   */
  function GetById(endpoint: string, id: string): (c: ClientCall)
    ensures c.Get? && c.query == []
    ensures StartsWith(c.path, endpoint) && c.path[|endpoint|..] == id
  {
    ClientCall.Get(endpoint + id, [])
  }

  /** The required arguments of a payment request other than its expiry time. */
  datatype Payment = Payment(amount: int, description: string, from: string, traceNumber: string,
                             notifyFrom: bool, notifyTo: bool)

  /**
   * The default array, with `expires` already rendered as an RFC 3339
   * (section 5.6) timestamp: the amount stays an integer, the account a
   * string, the flags booleans.
   */
  function Defaults(p: Payment, expires: string): (d: PhpArray)
    ensures DistinctKeys(d)
    ensures |d| == |DEFAULT_KEYS| && forall i :: 0 <= i < |d| ==> d[i].0 == StrKey(DEFAULT_KEYS[i])
    ensures Lookup(d, StrKey("amount")) == Some(Int(p.amount))
    ensures Lookup(d, StrKey("description")) == Some(Str(p.description))
    ensures Lookup(d, StrKey("from")) == Some(Str(p.from))
    ensures Lookup(d, StrKey("currency")) == Some(Str(CURRENCY))
    ensures Lookup(d, StrKey("tracenumber")) == Some(Str(p.traceNumber))
    ensures Lookup(d, StrKey("expires")) == Some(Str(expires))
    ensures Lookup(d, StrKey("notifyfrom")) == Some(Bool(p.notifyFrom))
    ensures Lookup(d, StrKey("notifyto")) == Some(Bool(p.notifyTo))
  {
    var d := [(StrKey("amount"), Int(p.amount)),
              (StrKey("description"), Str(p.description)),
              (StrKey("from"), Str(p.from)),
              (StrKey("currency"), Str(CURRENCY)),
              (StrKey("tracenumber"), Str(p.traceNumber)),
              (StrKey("expires"), Str(expires)),
              (StrKey("notifyfrom"), Bool(p.notifyFrom)),
              (StrKey("notifyto"), Bool(p.notifyTo))];
    assert DistinctKeys(d);
    LookupAt(d, 0); LookupAt(d, 1); LookupAt(d, 2); LookupAt(d, 3);
    LookupAt(d, 4); LookupAt(d, 5); LookupAt(d, 6); LookupAt(d, 7);
    d
  }

  /**
   * `array_merge($defaults, $parameters)`: under every string key the caller's
   * value when the caller gives one, the default otherwise; so each default
   * key is present and `currency` is `ETB` unless the caller overrides it.
   * The caller's values under integer keys follow, in order, renumbered
   * from 0.
   */
  function Parameters(p: Payment, expires: string, given: PhpArray): (r: PhpArray)
    ensures DistinctKeys(given) ==>
      forall s :: Lookup(r, StrKey(s))
               == if Lookup(given, StrKey(s)).Some? then Lookup(given, StrKey(s))
                  else Lookup(Defaults(p, expires), StrKey(s))
    ensures DistinctKeys(given) ==>
      forall i :: 0 <= i < |DEFAULT_KEYS| ==> Lookup(r, StrKey(DEFAULT_KEYS[i])).Some?
    ensures DistinctKeys(given) && Lookup(given, StrKey("currency")).None? ==>
      Lookup(r, StrKey("currency")) == Some(Str(CURRENCY))
    ensures IntValues(r) == IntValues(given) && IntKeys(r) == Range(0, |IntValues(given)|)
  {
    MergedStringKeys(p, expires, given);
    MergedIntKeys(p, expires, given);
    ArrayMerge(Defaults(p, expires), given)
  }

  /** The merged parameters under string keys. */
  lemma MergedStringKeys(p: Payment, expires: string, given: PhpArray)
    ensures DistinctKeys(given) ==>
      forall s :: Lookup(ArrayMerge(Defaults(p, expires), given), StrKey(s))
               == if Lookup(given, StrKey(s)).Some? then Lookup(given, StrKey(s))
                  else Lookup(Defaults(p, expires), StrKey(s))
    ensures DistinctKeys(given) ==>
      forall i :: 0 <= i < |DEFAULT_KEYS| ==> Lookup(ArrayMerge(Defaults(p, expires), given), StrKey(DEFAULT_KEYS[i])).Some?
    ensures DistinctKeys(given) && Lookup(given, StrKey("currency")).None? ==>
      Lookup(ArrayMerge(Defaults(p, expires), given), StrKey("currency")) == Some(Str(CURRENCY))
  {
    if DistinctKeys(given) {
      var d := Defaults(p, expires);
      MergeOverridesAll(d, given);
      DefaultKeysPresent(d);
    }
  }

  /** The merged parameters under integer keys: the defaults contribute none. */
  lemma MergedIntKeys(p: Payment, expires: string, given: PhpArray)
    ensures IntValues(ArrayMerge(Defaults(p, expires), given)) == IntValues(given)
    ensures IntKeys(ArrayMerge(Defaults(p, expires), given)) == Range(0, |IntValues(given)|)
  {
    var d := Defaults(p, expires);
    assert forall i :: 0 <= i < |d| ==> d[i].0.StrKey?;
    MergeAfterStringKeys(d, given);
  }

  lemma DefaultKeysPresent(d: PhpArray)
    requires DistinctKeys(d)
    requires |d| == |DEFAULT_KEYS| && forall i :: 0 <= i < |d| ==> d[i].0 == StrKey(DEFAULT_KEYS[i])
    ensures forall i :: 0 <= i < |DEFAULT_KEYS| ==> Lookup(d, StrKey(DEFAULT_KEYS[i])).Some?
  {
    forall i | 0 <= i < |DEFAULT_KEYS| ensures Lookup(d, StrKey(DEFAULT_KEYS[i])).Some? {
      LookupAt(d, i);
    }
  }

  /** A caller key that is not one of the defaults is sent as given. */
  lemma ExtraParameterAdded(p: Payment, expires: string, given: PhpArray, s: string, v: PhpValue)
    requires DistinctKeys(given) && s !in DEFAULT_KEYS && Lookup(given, StrKey(s)) == Some(v)
    ensures Lookup(Parameters(p, expires, given), StrKey(s)) == Some(v)
  {
  }

  /** Without caller parameters the request carries exactly the defaults' values. */
  lemma NoParametersKeepsDefaults(p: Payment, expires: string, s: string)
    ensures Lookup(Parameters(p, expires, []), StrKey(s)) == Lookup(Defaults(p, expires), StrKey(s))
  {
  }
}
