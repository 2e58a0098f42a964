/**
 * The abstract notification WebhookController: a GET request is the
 * webhook verification handshake, anything else is a notification routed by
 * its `EventTypeId` through a PHP `switch`, which compares loosely.
 */
module Notifications {
  import opened Php

  /** `Connection::CREATE_TRANSFER`. */
  const CREATE_TRANSFER: int := 1796
  /** `Connection::REFUND_TRANSACTION`. */
  const REFUND_TRANSACTION: int := 1797

  /** An incoming request: its (upper-case) HTTP method and its input parameters. */
  datatype NotificationRequest = NotificationRequest(verb: string, input: map<string, PhpValue>)

  /** The controller method a request ends in. */
  datatype Handler = Verify | HandleCreateTransaction | HandleRefundTransaction | HandleEventNotification

  /** `$request->get('EventTypeId')`: `Null` when absent. */
  function EventTypeId(req: NotificationRequest): PhpValue {
    if "EventTypeId" in req.input then req.input["EventTypeId"] else Null
  }

  /** `handleNotification($request)`: the first `case` loosely equal to the event type wins. */
  function HandleNotification(eventTypeId: PhpValue): (h: Handler)
    ensures h != Verify
    ensures h == HandleCreateTransaction <==> LooseEqualsInt(eventTypeId, CREATE_TRANSFER)
    ensures h == HandleRefundTransaction <==>
      !LooseEqualsInt(eventTypeId, CREATE_TRANSFER) && LooseEqualsInt(eventTypeId, REFUND_TRANSACTION)
  {
    if LooseEqualsInt(eventTypeId, CREATE_TRANSFER) then HandleCreateTransaction
    else if LooseEqualsInt(eventTypeId, REFUND_TRANSACTION) then HandleRefundTransaction
    else HandleEventNotification
  }

  /** `handle($request)`: GET verifies, every other method is a notification. */
  function Handle(req: NotificationRequest): (h: Handler)
    ensures h == Verify <==> req.verb == "GET"
    ensures req.verb != "GET" ==> h == HandleNotification(EventTypeId(req))
  {
    if req.verb == "GET" then Verify else HandleNotification(EventTypeId(req))
  }

  /**
   * `verify()`: the connection's authorization-code response cast to an
   * array; the properties of a decoded object become the array's entries, in
   * order, a name that is an integer's decimal text becoming that integer key.
   */
  function VerifyResponse(authorizationCode: PhpValue): (r: PhpArray)
    ensures authorizationCode.Obj? ==>
      |r| == |authorizationCode.props| &&
      forall i :: 0 <= i < |r| ==>
        r[i].1 == authorizationCode.props[i].1 && r[i].0 == CastKey(authorizationCode.props[i].0)
    ensures authorizationCode.Arr? ==> r == authorizationCode.entries
  {
    ArrayCast(authorizationCode)
  }

  /** Integer event types: 1796 creates, 1797 refunds, every other number is a plain event. */
  lemma IntegerEventTypes(n: int)
    ensures HandleNotification(Int(n)) ==
      if n == CREATE_TRANSFER then HandleCreateTransaction
      else if n == REFUND_TRANSACTION then HandleRefundTransaction
      else HandleEventNotification
  {
  }

  /** Form data carries numbers as text: the decimal text of a number routes exactly as the number does. */
  lemma NumericTextRoutesLikeNumber(n: int)
    ensures HandleNotification(Str(IntToString(n))) == HandleNotification(Int(n))
  {
    NumericStringEqualsInt(n, CREATE_TRANSFER);
    NumericStringEqualsInt(n, REFUND_TRANSACTION);
  }

  /** A notification without an `EventTypeId`, or with a non-numeric one, goes to `handleEventNotification`. */
  lemma UnknownEventTypeIsPlainEvent(req: NotificationRequest)
    requires req.verb != "GET"
    requires EventTypeId(req).Null? || EventTypeId(req).Arr? || EventTypeId(req).Obj? ||
             (EventTypeId(req).Str? && !IsIntString(EventTypeId(req).s))
    ensures Handle(req) == HandleEventNotification
  {
  }

  /** `true` is loosely equal to every non-zero number, so it matches the first case. */
  lemma TrueIsCreateTransfer()
    ensures HandleNotification(Bool(true)) == HandleCreateTransaction
    ensures HandleNotification(Bool(false)) == HandleEventNotification
  {
  }
}
