/** The verify-customer tool (`lib/ai/tools/verify-customer.ts`): check that
    an email owns an order and report what the customer may do next. */
module VerifyCustomerTool {
  import opened Base
  import opened Strings
  import opened Gateway
  import opened ShopifyOrders
  import CancelOrderTool

  datatype VerifyText =
    | Mismatch(email: string, orderNumber: string)
    | VerifiedSummary(name: string, financial: string, fulfillment: string)

  function Text(t: VerifyText): string {
    match t
    case Mismatch(e, n) =>
      "Sorry, the email \"" + e + "\" doesn't match our records for order " + n + ". Please check and try again."
    case VerifiedSummary(n, s, f) => "Verified! Order " + n + " (" + s + ", " + f + ")"
  }

  /** The tool's reply; absent fields are `None`. */
  datatype VerifyReply = VerifyReply(
    verified: bool,
    orderNumber: Option<string>,
    status: Option<string>,
    fulfillment: Option<string>,
    canCancel: Option<bool>,
    message: VerifyText)

  /** `displayFulfillmentStatus || "Unfulfilled"`. */
  function FulfillmentShown(o: Order): (s: string)
    ensures s != ""
    ensures o.fulfillmentStatus != "" ==> s == o.fulfillmentStatus
  {
    StrOr(o.fulfillmentStatus, "Unfulfilled")
  }

  /** A failed lookup rejects the call; otherwise the caller is verified
      exactly when the order exists and the email owns it, and only then are
      the order's details given. */
  function Execute(b: Backend, orderNumber: string, customerEmail: string): (r: Call<VerifyReply>)
    ensures r.Threw? <==> FindOrder(b, orderNumber).Threw?
    ensures r.Returned? ==>
      (r.value.verified <==> Located(b, orderNumber).Some? && OwnsOrder(Located(b, orderNumber).value, customerEmail))
    ensures r.Returned? && !r.value.verified ==>
      r.value == VerifyReply(false, None, None, None, None, Mismatch(customerEmail, orderNumber))
    ensures r.Returned? && r.value.verified ==>
      var o := Located(b, orderNumber).value;
      && r.value.orderNumber == Some(o.name)
      && r.value.status == Some(o.financialStatus)
      && r.value.fulfillment == Some(FulfillmentShown(o))
      && r.value.message == VerifiedSummary(o.name, o.financialStatus, FulfillmentShown(o))
  {
    match VerifyOrderOwnership(b, orderNumber, customerEmail)
    case Threw => Threw
    case Returned(v) =>
      if !v.verified then
        Returned(VerifyReply(false, None, None, None, None, Mismatch(customerEmail, orderNumber)))
      else
        var o := v.order.value;
        Returned(VerifyReply(true, Some(o.name), Some(o.financialStatus), Some(FulfillmentShown(o)),
          Some(!Truthy(o.cancelledAt) && o.fulfillmentStatus != "FULFILLED"),
          VerifiedSummary(o.name, o.financialStatus, FulfillmentShown(o))))
  }

  /** The reported `canCancel` is the library's cancellability of the order. */
  lemma CanCancelIsCancellable(b: Backend, orderNumber: string, customerEmail: string)
    requires Execute(b, orderNumber, customerEmail).Returned?
    requires Execute(b, orderNumber, customerEmail).value.verified
    ensures Execute(b, orderNumber, customerEmail).value.canCancel == Some(Cancellable(Located(b, orderNumber).value))
  {
  }

  /** The tools agree: when verification says the order can be cancelled, a
      confirmed cancellation with the same email reaches the store, and when
      it says it cannot, no cancellation is ever sent. */
  lemma CanCancelAgreesWithCancelTool(b: Backend, orderNumber: string, customerEmail: string, reason: Option<string>)
    requires customerEmail != ""
    requires Execute(b, orderNumber, customerEmail).Returned?
    requires Execute(b, orderNumber, customerEmail).value.verified
    ensures var sent := CancelOrderTool.Execute(b, CancelOrderTool.CancelInput(orderNumber, customerEmail, reason, true)).sent;
      Execute(b, orderNumber, customerEmail).value.canCancel == Some(true) <==> sent.Some?
  {
    var input := CancelOrderTool.CancelInput(orderNumber, customerEmail, reason, true);
    CanCancelIsCancellable(b, orderNumber, customerEmail);
    if Cancellable(Located(b, orderNumber).value) {
      CancelOrderTool.ConfirmedCancels(b, input);
    }
  }
}
