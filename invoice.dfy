/**
 * `Invoice`: each method describes one call of the client's public
 * `get`/`post`/`delete` and hands back what the client returns.
 */
module Invoice {
  import opened Php
  import opened ClientSpec
  import opened Requests

  const ENDPOINT: string := "/invoices/"

  /**
   * `create(...)`: POST to `/invoices/`, or to `/invoices/validate` when only
   * validating, with the defaults merged with the caller's parameters.
   * `expires` is the RFC 3339 rendering of the expiration time.
   */
  function Create(p: Payment, expires: string, parameters: PhpArray, validateOnly: bool): (c: ClientCall)
    ensures c.Post?
    ensures StartsWith(c.path, ENDPOINT) && c.path[|ENDPOINT|..] == if validateOnly then "validate" else ""
    ensures c.options == Parameters(p, expires, parameters)
  {
    ClientCall.Post(ENDPOINT + (if validateOnly then "validate" else ""), Parameters(p, expires, parameters))
  }

  /** `get($invoice_id)`: GET on the invoice's own path, no query. */
  function Get(invoiceId: string): (c: ClientCall)
    ensures c.Get? && c.query == []
    ensures StartsWith(c.path, ENDPOINT) && c.path[|ENDPOINT|..] == invoiceId
  {
    GetById(ENDPOINT, invoiceId)
  }

  /** `search($query_params)`: GET on the collection with the query passed through. */
  function Search(queryParams: PhpArray): (c: ClientCall)
    ensures c.Get? && c.path == ENDPOINT && c.query == queryParams
  {
    ClientCall.Get(ENDPOINT, queryParams)
  }

  /**
   * `remove($invoice_code)`: DELETE on `/invoices/` followed by the decimal
   * text of the code, which reads back as that code.
   */
  function Remove(invoiceCode: int): (c: ClientCall)
    ensures c.Delete? && c.query == []
    ensures StartsWith(c.path, ENDPOINT)
    ensures IsIntString(c.path[|ENDPOINT|..]) && ParseIntString(c.path[|ENDPOINT|..]) == invoiceCode
  {
    IntStringRoundTrip(invoiceCode);
    ClientCall.Delete(ENDPOINT + IntToString(invoiceCode), [])
  }

  /** What `remove` returns: `true` whenever the client call returns, its exception otherwise. */
  function Removed(r: Result<PhpValue>): (b: Result<bool>)
    ensures b.Success? <==> r.Success?
    ensures b.Success? ==> b.value
    ensures b.Failure? ==> b.error == r.error
  {
    match r
    case Success(_) => Success(true)
    case Failure(e) => Failure(e)
  }

  /** Two different codes never delete the same path. */
  lemma RemoveTargetsOneInvoice(a: int, b: int)
    requires Remove(a).path == Remove(b).path
    ensures a == b
  {
  }

  /**
   * On the wire: `create` sends its parameters as the JSON body with the
   * bearer token, `get` and `search` send a query, `remove` a DELETE.
   */
  lemma InvoiceRequests(p: Payment, expires: string, parameters: PhpArray, validateOnly: bool,
                        invoiceId: string, queryParams: PhpArray, invoiceCode: int, token: string)
    ensures var r := ApiRequest(Create(p, expires, parameters, validateOnly), token);
      r.verb == POST && r.query.None? && r.json == Some(Parameters(p, expires, parameters)) &&
      r.headers == Some(AuthorizationHeader(token))
    ensures var r := ApiRequest(Get(invoiceId), token);
      r.verb == GET && r.path == ENDPOINT + invoiceId && r.query == Some([]) && r.json.None?
    ensures var r := ApiRequest(Search(queryParams), token);
      r.verb == GET && r.path == ENDPOINT && r.query == Some(queryParams) && r.json.None?
    ensures var r := ApiRequest(Remove(invoiceCode), token);
      r.verb == DELETE && r.path == ENDPOINT + IntToString(invoiceCode) && r.json.None?
  {
  }
}
