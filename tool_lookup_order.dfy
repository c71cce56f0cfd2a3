/** The lookup-order tool (`lib/ai/tools/lookup-order.ts`): with an email, full
    details for a verified owner; without one, a basic lookup. */
module LookupOrderTool {
  import opened Base
  import opened Strings
  import opened Gateway
  import opened ShopifyOrders

  datatype LookupText =
    | IdentityNotConfirmed(orderNumber: string)
    | NotFoundText(orderNumber: string)
    | EmailNeeded

  function Text(t: LookupText): string {
    match t
    case IdentityNotConfirmed(n) =>
      "I couldn't verify your identity. Please check that the email address matches the one used for order " + n + "."
    case NotFoundText(n) => "Order " + n + " not found. Please check the order number."
    case EmailNeeded =>
      "For full order details and to make changes, please provide the email address associated with this order."
  }

  /** The tool's reply; absent fields are `None`. `email` is `Some(None)`
      when the order's email is null. */
  datatype LookupReply = LookupReply(
    found: bool,
    verified: Option<bool>,
    orderNumber: Option<string>,
    email: Option<Option<string>>,
    status: Option<string>,
    fulfillment: Option<string>,
    message: Option<LookupText>)

  function FulfillmentShown(o: Order): string {
    StrOr(o.fulfillmentStatus, "Unfulfilled")
  }

  /** A failed lookup rejects the call. */
  function Execute(b: Backend, orderNumber: string, customerEmail: Option<string>): (r: Call<LookupReply>)
    ensures r.Threw? <==> FindOrder(b, orderNumber).Threw?
    ensures r.Returned? && Truthy(customerEmail) && !r.value.found ==>
      r.value == LookupReply(false, Some(false), None, None, None, None, Some(IdentityNotConfirmed(orderNumber)))
    ensures r.Returned? && !Truthy(customerEmail) && !r.value.found ==>
      r.value == LookupReply(false, None, None, None, None, None, Some(NotFoundText(orderNumber)))
    ensures r.Returned? && r.value.found ==> Located(b, orderNumber).Some?
    ensures r.Returned? && r.value.found ==>
      var o := Located(b, orderNumber).value;
      && r.value.orderNumber == Some(o.name)
      && r.value.status == Some(o.financialStatus)
      && r.value.fulfillment == Some(FulfillmentShown(o))
    ensures r.Returned? && Truthy(customerEmail) && r.value.found ==>
      && r.value.verified == Some(true)
      && r.value.email == Some(Located(b, orderNumber).value.email)
      && r.value.message.None?
    ensures r.Returned? && !Truthy(customerEmail) && r.value.found ==>
      && r.value.verified == Some(false)
      && r.value.email.None?
      && r.value.message == Some(EmailNeeded)
  {
    if Truthy(customerEmail) then
      match VerifyOrderOwnership(b, orderNumber, customerEmail.value)
      case Threw => Threw
      case Returned(v) =>
        if !v.verified then
          Returned(LookupReply(false, Some(false), None, None, None, None, Some(IdentityNotConfirmed(orderNumber))))
        else
          var o := v.order.value;
          Returned(LookupReply(true, Some(true), Some(o.name), Some(o.email), Some(o.financialStatus),
            Some(FulfillmentShown(o)), None))
    else
      match FindOrder(b, orderNumber)
      case Threw => Threw
      case Returned(None) => Returned(LookupReply(false, None, None, None, None, None, Some(NotFoundText(orderNumber))))
      case Returned(Some(o)) =>
        Returned(LookupReply(true, Some(false), Some(o.name), None, Some(o.financialStatus),
          Some(FulfillmentShown(o)), Some(EmailNeeded)))
  }

  /** With an email the order is reported found exactly when that email owns
      it; a wrong email hides even whether the order exists. */
  lemma FoundWithEmailIffOwner(b: Backend, orderNumber: string, customerEmail: string)
    requires customerEmail != ""
    requires Execute(b, orderNumber, Some(customerEmail)).Returned?
    ensures var r := Execute(b, orderNumber, Some(customerEmail)).value;
      && (r.found <==> Located(b, orderNumber).Some? && OwnsOrder(Located(b, orderNumber).value, customerEmail))
      && (r.found <==> r.verified == Some(true))
  {
  }

  /** Without an email the order is reported found exactly when it exists,
      and it is never reported verified. */
  lemma FoundWithoutEmailIffExists(b: Backend, orderNumber: string, customerEmail: Option<string>)
    requires !Truthy(customerEmail)
    requires Execute(b, orderNumber, customerEmail).Returned?
    ensures var r := Execute(b, orderNumber, customerEmail).value;
      && (r.found <==> Located(b, orderNumber).Some?)
      && r.verified != Some(true)
  {
  }

  /** The order's email is disclosed only to a verified owner, and then it is
      the order's own email. */
  lemma EmailOnlyToOwner(b: Backend, orderNumber: string, customerEmail: Option<string>)
    requires Execute(b, orderNumber, customerEmail).Returned?
    requires Execute(b, orderNumber, customerEmail).value.email.Some?
    ensures Truthy(customerEmail) && Located(b, orderNumber).Some?
    ensures OwnsOrder(Located(b, orderNumber).value, customerEmail.value)
    ensures Execute(b, orderNumber, customerEmail).value.email == Some(Located(b, orderNumber).value.email)
  {
  }
}
