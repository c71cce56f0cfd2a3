/** The cancel-order tool (`lib/ai/tools/cancel-order.ts`): verify the
    caller's email, refuse cancelled and fulfilled orders, ask for
    confirmation, and only then cancel through the library. */
module CancelOrderTool {
  import opened Base
  import opened Strings
  import opened Gateway
  import opened ShopifyOrders

  datatype CancelInput = CancelInput(
    orderNumber: string,
    customerEmail: string,
    reason: Option<string>,
    customerConfirmed: bool)

  /** The texts the tool replies with; `Text` gives the wording. */
  datatype CancelText =
    | EmailRequired
    | NotVerified(failure: VerifyFailure)
    | AlreadyCancelledOrder(name: string)
    | ShippedUseReturn(name: string)
    | ConfirmCancel(name: string)
    | CancelConfirmed(name: string)
    | Refused(error: OrderError)
    | SomethingWrong

  function Text(t: CancelText): string {
    match t
    case EmailRequired =>
      "STOP: Customer email is required. Ask the customer for their email address before proceeding."
    case NotVerified(f) => FailureText(f)
    case AlreadyCancelledOrder(n) => "Order " + n + " has already been cancelled."
    case ShippedUseReturn(n) =>
      "Order " + n + " has already been shipped and cannot be cancelled. Please initiate a return instead."
    case ConfirmCancel(n) =>
      "I verified your email. Order " + n
        + " is ready to be cancelled. Please confirm by saying \"Yes, cancel my order\". This will refund your payment and cannot be undone."
    case CancelConfirmed(n) =>
      "Order " + n + " has been cancelled. You'll receive a confirmation email and refund within 5-10 business days."
    case Refused(e) => ErrorText(e)
    case SomethingWrong => "Something went wrong. Please contact support."
  }

  /** The tool's reply; absent fields are `None`, an absent
      `needsConfirmation` is `false`. */
  datatype CancelReply = CancelReply(
    success: bool,
    verified: Option<bool>,
    needsConfirmation: bool,
    cancelled: Option<bool>,
    orderNumber: Option<string>,
    message: Option<CancelText>,
    error: Option<CancelText>)

  /** The cancellation request sent to the store, if any, and the reply; a
      failed verification lookup rejects the whole call. */
  datatype CancelToolRun = CancelToolRun(sent: Option<CancelRequest>, reply: Call<CancelReply>)

  /** The reason handed to the library: the given one, else "Customer request". */
  function ReasonSent(input: CancelInput): string {
    OrElse(input.reason, "Customer request")
  }

  /** A mutation is sent only for a verified, cancellable, confirmed request;
      success means the store cancelled the order. */
  function Execute(b: Backend, input: CancelInput): (r: CancelToolRun)
    ensures r.sent.Some? ==>
      && input.customerEmail != "" && input.customerConfirmed
      && Located(b, input.orderNumber).Some?
      && OwnsOrder(Located(b, input.orderNumber).value, input.customerEmail)
      && Cancellable(Located(b, input.orderNumber).value)
      && r.sent.value == CancelRequestFor(Located(b, input.orderNumber).value, Some(ReasonSent(input)))
    ensures r.reply.Returned? && r.reply.value.success ==>
      r.sent.Some? && r.reply.value.cancelled == Some(true) && r.reply.value.verified == Some(true)
  {
    if input.customerEmail == "" then
      CancelToolRun(None, Returned(CancelReply(false, None, false, None, None, None, Some(EmailRequired))))
    else
      match VerifyOrderOwnership(b, input.orderNumber, input.customerEmail)
      case Threw => CancelToolRun(None, Threw)
      case Returned(v) =>
        if !v.verified then
          CancelToolRun(None, Returned(CancelReply(false, Some(false), false, None, None, None, Some(NotVerified(v.reason.value)))))
        else
          var o := v.order.value;
          if Truthy(o.cancelledAt) then
            CancelToolRun(None, Returned(CancelReply(false, Some(true), false, None, None, None,
              Some(AlreadyCancelledOrder(o.name)))))
          else if o.fulfillmentStatus == "FULFILLED" then
            CancelToolRun(None, Returned(CancelReply(false, Some(true), false, None, None, None,
              Some(ShippedUseReturn(o.name)))))
          else if !input.customerConfirmed then
            CancelToolRun(None, Returned(CancelReply(false, Some(true), true, None, Some(o.name),
              Some(ConfirmCancel(o.name)), None)))
          else
            var run := CancelOrder(b, input.orderNumber, Some(ReasonSent(input)));
            match run.outcome
            case Threw => CancelToolRun(run.sent, Returned(CancelReply(false, None, false, None, None, None, Some(SomethingWrong))))
            case Returned(Cancelled(n)) =>
              CancelToolRun(run.sent, Returned(CancelReply(true, Some(true), false, Some(true), Some(n),
                Some(CancelConfirmed(n)), None)))
            case Returned(CancelRefused(e)) =>
              CancelToolRun(run.sent, Returned(CancelReply(false, Some(true), false, Some(false), None, None, Some(Refused(e)))))
  }

  /** No email stops the call before any lookup; a rejected ownership lookup
      rejects the call (it is outside the tool's error handling); a failed
      verification reports its reason and sends nothing. */
  lemma VerificationGate(b: Backend, input: CancelInput)
    ensures input.customerEmail == "" ==>
      Execute(b, input) == CancelToolRun(None, Returned(CancelReply(false, None, false, None, None, None, Some(EmailRequired))))
    ensures input.customerEmail != "" && FindOrder(b, input.orderNumber).Threw? ==>
      Execute(b, input) == CancelToolRun(None, Threw)
    ensures input.customerEmail != "" && FindOrder(b, input.orderNumber) == Returned(None) ==>
      Execute(b, input) == CancelToolRun(None, Returned(CancelReply(false, Some(false), false, None, None, None,
        Some(NotVerified(OrderNotFound)))))
    ensures (input.customerEmail != "" && Located(b, input.orderNumber).Some?
             && !OwnsOrder(Located(b, input.orderNumber).value, input.customerEmail)) ==>
      Execute(b, input) == CancelToolRun(None, Returned(CancelReply(false, Some(false), false, None, None, None,
        Some(NotVerified(EmailMismatch)))))
  {
  }

  /** Every reply but the stop and the generic error says whether the caller
      was verified. */
  lemma RepliesCarryVerified(b: Backend, input: CancelInput)
    ensures var r := Execute(b, input).reply;
      r.Returned? && r.value.error != Some(EmailRequired) && r.value.error != Some(SomethingWrong) ==>
        r.value.verified.Some?
  {
    if input.customerEmail != "" {
      match VerifyOrderOwnership(b, input.orderNumber, input.customerEmail)
      case Threw =>
      case Returned(v) =>
        if v.verified && !Truthy(v.order.value.cancelledAt) && v.order.value.fulfillmentStatus != "FULFILLED"
           && input.customerConfirmed {
          var run := CancelOrder(b, input.orderNumber, Some(ReasonSent(input)));
          match run.outcome
          case Threw =>
            assert Execute(b, input).reply.value.error == Some(SomethingWrong);
          case Returned(Cancelled(n)) =>
            assert Execute(b, input).reply.value.verified == Some(true);
          case Returned(CancelRefused(e)) =>
            assert Execute(b, input).reply.value.verified == Some(true);
        }
    }
  }

  /** Guards in order: an already-cancelled order is refused as cancelled even
      when it is also fulfilled; a fulfilled one is pointed to a return. */
  lemma CancelledBeforeFulfilled(b: Backend, input: CancelInput)
    requires input.customerEmail != ""
    requires Located(b, input.orderNumber).Some? && OwnsOrder(Located(b, input.orderNumber).value, input.customerEmail)
    ensures var o := Located(b, input.orderNumber).value;
      var r := Execute(b, input);
      && (Truthy(o.cancelledAt) ==>
            r == CancelToolRun(None, Returned(CancelReply(false, Some(true), false, None, None, None,
              Some(AlreadyCancelledOrder(o.name))))))
      && (!Truthy(o.cancelledAt) && o.fulfillmentStatus == "FULFILLED" ==>
            r == CancelToolRun(None, Returned(CancelReply(false, Some(true), false, None, None, None,
              Some(ShippedUseReturn(o.name))))))
  {
  }

  /** Without confirmation a cancellable verified order is only announced. */
  lemma UnconfirmedAsksFirst(b: Backend, input: CancelInput)
    requires input.customerEmail != "" && !input.customerConfirmed
    requires Located(b, input.orderNumber).Some?
    requires OwnsOrder(Located(b, input.orderNumber).value, input.customerEmail)
    requires Cancellable(Located(b, input.orderNumber).value)
    ensures var r := Execute(b, input);
      && r.sent.None? && r.reply.Returned? && r.reply.value.needsConfirmation
      && r.reply.value.orderNumber == Some(Located(b, input.orderNumber).value.name)
  {
  }

  /** A confirmed request for a verified cancellable order always reaches the
      store with the reason given, or "Customer request". */
  lemma ConfirmedCancels(b: Backend, input: CancelInput)
    requires input.customerEmail != "" && input.customerConfirmed
    requires Located(b, input.orderNumber).Some?
    requires OwnsOrder(Located(b, input.orderNumber).value, input.customerEmail)
    requires Cancellable(Located(b, input.orderNumber).value)
    ensures Execute(b, input).sent == Some(CancelRequestFor(Located(b, input.orderNumber).value, Some(ReasonSent(input))))
  {
  }

  /** The reply to a confirmed request for a verified cancellable order
      follows the library's outcome: a cancellation echoes the store's order
      name, a refusal passes the library's error on, and a failure of the
      call becomes the generic error. */
  lemma ConfirmedReplies(b: Backend, input: CancelInput)
    requires input.customerEmail != "" && input.customerConfirmed
    requires Located(b, input.orderNumber).Some?
    requires OwnsOrder(Located(b, input.orderNumber).value, input.customerEmail)
    requires Cancellable(Located(b, input.orderNumber).value)
    ensures var r := Execute(b, input).reply;
      match CancelOrder(b, input.orderNumber, Some(ReasonSent(input))).outcome
      case Threw =>
        r == Returned(CancelReply(false, None, false, None, None, None, Some(SomethingWrong)))
      case Returned(Cancelled(n)) =>
        && r.Returned? && r.value.success && r.value.verified == Some(true)
        && r.value.cancelled == Some(true) && r.value.orderNumber == Some(n)
        && r.value.message == Some(CancelConfirmed(n)) && r.value.error == None
      case Returned(CancelRefused(e)) =>
        && r.Returned? && !r.value.success && r.value.verified == Some(true)
        && r.value.cancelled == Some(false) && r.value.orderNumber == None
        && r.value.error == Some(Refused(e))
  {
  }

  /** A confirmed cancellation with no reason given is a customer cancellation. */
  lemma ConfirmedDefaultIsCustomer(b: Backend, input: CancelInput)
    requires input.customerEmail != "" && input.customerConfirmed && !Truthy(input.reason)
    requires Located(b, input.orderNumber).Some?
    requires OwnsOrder(Located(b, input.orderNumber).value, input.customerEmail)
    requires Cancellable(Located(b, input.orderNumber).value)
    ensures Execute(b, input).sent.Some? && Execute(b, input).sent.value.reason == Customer
  {
    ConfirmedCancels(b, input);
    DefaultReasonIsCustomer(input);
  }

  /** With no reason given the library is asked for a customer cancellation. */
  lemma DefaultReasonIsCustomer(input: CancelInput)
    requires !Truthy(input.reason)
    ensures ReasonSent(input) == "Customer request"
    ensures MapCancelReason(Some(ReasonSent(input))) == Customer
  {
    MapCancelReasonCustomerRequest();
  }

  /** A rejected cancellation request gives the generic error, which carries
      no verification field. */
  lemma ThrownCancelIsGeneric(b: Backend, input: CancelInput)
    requires input.customerEmail != "" && input.customerConfirmed
    requires Located(b, input.orderNumber).Some?
    requires OwnsOrder(Located(b, input.orderNumber).value, input.customerEmail)
    requires Cancellable(Located(b, input.orderNumber).value)
    requires b.cancelOrder(CancelRequestFor(Located(b, input.orderNumber).value, Some(ReasonSent(input)))).Threw?
    ensures Execute(b, input).reply == Returned(CancelReply(false, None, false, None, None, None, Some(SomethingWrong)))
  {
  }
}
