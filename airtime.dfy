/**
 * `Airtime`: an airtime transfer is created like an invoice, on its own
 * endpoint, and the client's response is returned unchanged.
 */
module Airtime {
  import opened Php
  import opened ClientSpec
  import opened Requests

  const ENDPOINT: string := "/airtime/"

  /**
   * `create(...)`. `expires` is the RFC 3339 rendering of the expiration date
   * parsed with the format `Y-m-d H:i`, `None` when that parse fails: then
   * `format` is called on `false`, a PHP Error, and nothing is sent (`None`).
   */
  function Create(p: Payment, expires: Option<string>, validateOnly: bool, parameters: PhpArray): (c: Option<ClientCall>)
    ensures c.Some? <==> expires.Some?
    ensures c.Some? ==> c.value.Post? && c.value.options == Parameters(p, expires.value, parameters)
    ensures c.Some? ==> StartsWith(c.value.path, ENDPOINT) &&
                        c.value.path[|ENDPOINT|..] == if validateOnly then "validate" else ""
  {
    match expires
    case None => None
    case Some(e) => Some(ClientCall.Post(ENDPOINT + (if validateOnly then "validate" else ""), Parameters(p, e, parameters)))
  }

  /** `available()`: GET `/airtime/available` with an empty query. */
  function Available(): (c: ClientCall)
    ensures c.Get? && c.query == []
    ensures StartsWith(c.path, ENDPOINT) && c.path[|ENDPOINT|..] == "available"
  {
    ClientCall.Get(ENDPOINT + "available", [])
  }

  /** The currency of an airtime transfer is `ETB` unless the caller's parameters name another. */
  lemma AirtimeCurrency(p: Payment, expires: string, validateOnly: bool, parameters: PhpArray)
    requires DistinctKeys(parameters)
    ensures var c := Create(p, Some(expires), validateOnly, parameters).value;
      Lookup(c.options, StrKey("currency")) ==
        if Lookup(parameters, StrKey("currency")).Some? then Lookup(parameters, StrKey("currency"))
        else Some(Str(CURRENCY))
  {
  }
}
