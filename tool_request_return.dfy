/** The request-return tool (`lib/ai/tools/request-return.ts`): verify the
    caller, accept only delivered orders inside the 30-day window, summarise
    the request for confirmation, then issue a return id with the next steps. */
module RequestReturnTool {
  import opened Base
  import opened Strings
  import opened Seqs
  import opened Gateway
  import opened ShopifyOrders

  const DayMs := 86400000
  const ReturnWindowDays := 30

  // ---------------------------------------------------------------------
  // The return window
  // ---------------------------------------------------------------------

  /** `Math.floor((now - createdAt) / 86400000)`: whole days since the order,
      negative for an order dated in the future. */
  function DaysSince(now: int, createdAt: int): (d: int)
    ensures d * DayMs <= now - createdAt < (d + 1) * DayMs
  {
    (now - createdAt) / DayMs
  }

  /** An order is inside the window exactly when fewer than 31 whole days
      have passed since it was placed. */
  lemma WithinWindowIff(now: int, createdAt: int)
    ensures DaysSince(now, createdAt) <= ReturnWindowDays <==> now - createdAt < (ReturnWindowDays + 1) * DayMs
  {
    var d := DaysSince(now, createdAt);
    if d <= ReturnWindowDays {
      assert (d + 1) * DayMs <= (ReturnWindowDays + 1) * DayMs;
    } else {
      assert d * DayMs >= (ReturnWindowDays + 1) * DayMs;
    }
  }

  // ---------------------------------------------------------------------
  // Items
  // ---------------------------------------------------------------------

  datatype ReturnItem = ReturnItem(
    productName: string,
    reason: string,
    action: string,
    exchangeDetails: Option<string>,
    additionalNotes: Option<string>)

  /** An item as echoed in a created return. */
  datatype ReturnedItem = ReturnedItem(product: string, reason: string, action: string, exchangeDetails: Option<string>)

  predicate IsReasonCode(reason: string) {
    reason in ["wrong_size", "defective", "not_as_described", "changed_mind", "arrived_damaged", "other"]
  }

  /** `formatReason`: the label of a known reason code, any other reason as it is. */
  function FormatReason(reason: string): (r: string)
    ensures r != "" || reason == ""
    ensures !IsReasonCode(reason) ==> r == reason
    ensures IsReasonCode(reason) ==> r != reason && r != ""
  {
    if reason == "wrong_size" then "Wrong size"
    else if reason == "defective" then "Product defect"
    else if reason == "not_as_described" then "Not as described"
    else if reason == "changed_mind" then "Changed mind"
    else if reason == "arrived_damaged" then "Arrived damaged"
    else if reason == "other" then "Other reason"
    else reason
  }

  /** Distinct reason codes get distinct labels. */
  lemma FormatReasonInjectiveOnCodes(a: string, b: string)
    requires IsReasonCode(a) && IsReasonCode(b) && a != b
    ensures FormatReason(a) != FormatReason(b)
  {
  }

  function Echo(item: ReturnItem): ReturnedItem {
    ReturnedItem(item.productName, FormatReason(item.reason), item.action, item.exchangeDetails)
  }

  /** One line of the confirmation summary. */
  function SummaryLine(item: ReturnItem): string {
    "- " + item.productName + ": " + item.action
      + (if Truthy(item.exchangeDetails) then " (" + item.exchangeDetails.value + ")" else "")
  }

  function ItemSummary(items: seq<ReturnItem>): string {
    Join(Map(SummaryLine, items), "\n")
  }

  /** Every item's line appears in the summary, and a line names its product
      and action and, when given, the exchange details. */
  lemma ItemSummaryListsEveryItem(items: seq<ReturnItem>)
    ensures forall k :: 0 <= k < |items| ==> Contains(ItemSummary(items), SummaryLine(items[k]))
    ensures forall k :: 0 <= k < |items| ==>
      StartsWith(SummaryLine(items[k]), "- " + items[k].productName + ": " + items[k].action)
  {
    var lines := Map(SummaryLine, items);
    JoinContainsParts(lines, "\n");
    forall k | 0 <= k < |items|
      ensures StartsWith(SummaryLine(items[k]), "- " + items[k].productName + ": " + items[k].action)
    {
      var head := "- " + items[k].productName + ": " + items[k].action;
      var tail := if Truthy(items[k].exchangeDetails) then " (" + items[k].exchangeDetails.value + ")" else "";
      assert SummaryLine(items[k]) == head + tail;
      assert (head + tail)[..|head|] == head;
    }
  }

  predicate HasAction(items: seq<ReturnItem>, action: string) {
    exists i :: 0 <= i < |items| && items[i].action == action
  }

  // ---------------------------------------------------------------------
  // Next steps
  // ---------------------------------------------------------------------

  datatype NextStep = LabelByEmail | PackItems | AttachLabel | DropOff | RefundTiming | ExchangeTiming

  function StepText(s: NextStep): string {
    match s
    case LabelByEmail => "\U{1F4E7} You'll receive a return shipping label via email within 24 hours"
    case PackItems => "\U{1F4E6} Pack items in original packaging (if available)"
    case AttachLabel => "\U{1F3F7}\U{FE0F} Attach the prepaid return label to your package"
    case DropOff => "\U{1F4EE} Drop off at any UPS location"
    case RefundTiming => "\U{1F4B0} Refunds processed within 5-7 business days of receiving items"
    case ExchangeTiming => "\U{1F504} Exchanges shipped within 2-3 business days of receiving items"
  }

  /** The four fixed steps, then the refund and exchange timings that apply. */
  function NextSteps(items: seq<ReturnItem>): (r: seq<NextStep>)
    ensures 4 <= |r| <= 6 && NoDuplicates(r)
    ensures r[..4] == [LabelByEmail, PackItems, AttachLabel, DropOff]
    ensures RefundTiming in r <==> HasAction(items, "refund")
    ensures ExchangeTiming in r <==> HasAction(items, "exchange")
    ensures |r| > 4 ==> r[4] == if HasAction(items, "refund") then RefundTiming else ExchangeTiming
    ensures |r| == 6 ==> r[4] == RefundTiming && r[5] == ExchangeTiming
  {
    [LabelByEmail, PackItems, AttachLabel, DropOff]
      + (if HasAction(items, "refund") then [RefundTiming] else [])
      + (if HasAction(items, "exchange") then [ExchangeTiming] else [])
  }

  datatype ReturnPolicy = ReturnPolicy(window: string, condition: string, exceptions: string)

  const Policy := ReturnPolicy("30 days from delivery", "Items must be unused with original tags",
    "Mounted bindings and used gear cannot be returned")
  const SupportEmail := "support@techgearsnowboards.com"

  // ---------------------------------------------------------------------
  // The tool
  // ---------------------------------------------------------------------

  datatype ReturnInput = ReturnInput(
    orderNumber: string,
    customerEmail: string,
    items: seq<ReturnItem>,
    customerConfirmed: bool)

  /** The texts the tool replies with; `Text` gives the wording. */
  datatype ReturnText =
    | IdentityUnverified
    | NotVerified(failure: VerifyFailure)
    | NotYetDelivered
    | NotDeliveredDetail(name: string, status: string)
    | SuggestCancel
    | WindowExpired
    | WindowExpiredDetail(name: string, days: nat)
    | SuggestWarranty
    | Summary(name: string, summary: string)
    | ReturnCreated(returnId: string)

  function Text(t: ReturnText): string {
    match t
    case IdentityUnverified => "I couldn't verify your identity. Please check your order number and email address."
    case NotVerified(f) => FailureText(f)
    case NotYetDelivered => "Order not yet delivered"
    case NotDeliveredDetail(n, s) =>
      "Order " + n + " hasn't been delivered yet (Status: " + s
        + "). You can cancel the order instead, or wait until it arrives to request a return."
    case SuggestCancel => "Would you like to cancel this order instead?"
    case WindowExpired => "Return window expired"
    case WindowExpiredDetail(n, d) =>
      "Unfortunately, order " + n + " is outside our 30-day return window (ordered " + NatToString(d)
        + " days ago). However, if you're experiencing a product defect, you may be eligible for a warranty claim."
    case SuggestWarranty => "Would you like to submit a warranty claim instead?"
    case Summary(n, s) =>
      "Here's your return request summary for order " + n + ":\n\n" + s
        + "\n\nPlease confirm by saying \"Yes, submit my return\" to proceed."
    case ReturnCreated(id) => "Return request " + id + " has been created!"
  }

  /** The tool's reply; absent fields are `None`, an absent
      `needsConfirmation` is `false`. */
  datatype ReturnReply = ReturnReply(
    success: bool,
    error: Option<ReturnText>,
    message: Option<ReturnText>,
    suggestion: Option<ReturnText>,
    needsConfirmation: bool,
    orderNumber: Option<string>,
    daysRemaining: Option<int>,
    returnId: Option<string>,
    items: Option<seq<ReturnedItem>>,
    nextSteps: Option<seq<NextStep>>,
    returnPolicy: Option<ReturnPolicy>,
    supportEmail: Option<string>)

  function Refusal(error: ReturnText, message: ReturnText, suggestion: Option<ReturnText>): ReturnReply {
    ReturnReply(false, Some(error), Some(message), suggestion, false, None, None, None, None, None, None, None)
  }

  /** `RET-` followed by the clock reading in milliseconds. */
  function ReturnId(stamp: nat): string {
    "RET-" + NatToString(stamp)
  }

  /** The return id gives back the instant it was issued at. */
  lemma ReturnIdReadsBack(stamp: nat)
    ensures StartsWith(ReturnId(stamp), "RET-")
    ensures ParseNat(ReturnId(stamp)[4..]) == stamp
  {
    assert ReturnId(stamp)[4..] == NatToString(stamp);
    ParseNatToString(stamp);
  }

  /** `now` is the clock when the window is checked and `stamp` the clock
      when the id is made. A return is created only for a verified owner of
      a delivered order inside the window who confirmed. */
  function Execute(b: Backend, input: ReturnInput, now: int, stamp: nat): (r: Call<ReturnReply>)
    ensures r.Threw? <==> FindOrder(b, input.orderNumber).Threw?
    ensures r.Returned? && r.value.success ==>
      && input.customerConfirmed
      && Located(b, input.orderNumber).Some?
      && OwnsOrder(Located(b, input.orderNumber).value, input.customerEmail)
      && Located(b, input.orderNumber).value.fulfillmentStatus == "FULFILLED"
      && DaysSince(now, Located(b, input.orderNumber).value.createdAt) <= ReturnWindowDays
    ensures r.Returned? && r.value.success ==>
      && r.value.returnId == Some(ReturnId(stamp))
      && r.value.items == Some(Map(Echo, input.items))
      && r.value.nextSteps == Some(NextSteps(input.items))
    ensures r.Returned? && r.value.needsConfirmation ==>
      r.value.daysRemaining.Some? && 0 <= r.value.daysRemaining.value
  {
    match VerifyOrderOwnership(b, input.orderNumber, input.customerEmail)
    case Threw => Threw
    case Returned(v) =>
      if !v.verified then
        Returned(ReturnReply(false, Some(NotVerified(v.reason.value)), Some(IdentityUnverified), None, false,
          None, None, None, None, None, None, None))
      else
        var o := v.order.value;
        if o.fulfillmentStatus != "FULFILLED" then
          Returned(Refusal(NotYetDelivered, NotDeliveredDetail(o.name, StrOr(o.fulfillmentStatus, "Unfulfilled")),
            Some(SuggestCancel)))
        else
          var days := DaysSince(now, o.createdAt);
          if days > ReturnWindowDays then
            Returned(Refusal(WindowExpired, WindowExpiredDetail(o.name, days), Some(SuggestWarranty)))
          else if !input.customerConfirmed then
            Returned(ReturnReply(false, None, Some(Summary(o.name, ItemSummary(input.items))), None, true,
              Some(o.name), Some(ReturnWindowDays - days), None, None, None, None, None))
          else
            var id := ReturnId(stamp);
            Returned(ReturnReply(true, None, Some(ReturnCreated(id)), None, false, Some(o.name), None, Some(id),
              Some(Map(Echo, input.items)), Some(NextSteps(input.items)), Some(Policy), Some(SupportEmail)))
  }

  /** A caller who does not own the order, or asks for one the store does not
      have, is told why and given nothing about any order: no order number,
      no return id, no items and no next steps. */
  lemma VerificationFailureReply(b: Backend, input: ReturnInput, now: int, stamp: nat)
    requires FindOrder(b, input.orderNumber).Returned?
    requires !(Located(b, input.orderNumber).Some? && OwnsOrder(Located(b, input.orderNumber).value, input.customerEmail))
    ensures Execute(b, input, now, stamp) == Returned(ReturnReply(false,
      Some(NotVerified(if Located(b, input.orderNumber).None? then OrderNotFound else EmailMismatch)),
      Some(IdentityUnverified), None, false, None, None, None, None, None, None, None))
  {
  }

  /** Guards in order after verification: an undelivered order is pointed to
      cancellation, a delivered one past the window to a warranty claim. */
  lemma Eligibility(b: Backend, input: ReturnInput, now: int, stamp: nat)
    requires Located(b, input.orderNumber).Some?
    requires OwnsOrder(Located(b, input.orderNumber).value, input.customerEmail)
    ensures var o := Located(b, input.orderNumber).value;
      var r := Execute(b, input, now, stamp);
      && (o.fulfillmentStatus != "FULFILLED" ==>
            r == Returned(Refusal(NotYetDelivered, NotDeliveredDetail(o.name, StrOr(o.fulfillmentStatus, "Unfulfilled")),
              Some(SuggestCancel))))
      && (o.fulfillmentStatus == "FULFILLED" && now - o.createdAt >= (ReturnWindowDays + 1) * DayMs ==>
            r.Returned? && r.value.error == Some(WindowExpired) && r.value.suggestion == Some(SuggestWarranty))
  {
    WithinWindowIff(now, Located(b, input.orderNumber).value.createdAt);
  }

  /** A verified, confirmed request on a delivered order placed less than 31
      days ago always creates the return. */
  lemma InsideWindowCreates(b: Backend, input: ReturnInput, now: int, stamp: nat)
    requires input.customerConfirmed
    requires Located(b, input.orderNumber).Some?
    requires OwnsOrder(Located(b, input.orderNumber).value, input.customerEmail)
    requires Located(b, input.orderNumber).value.fulfillmentStatus == "FULFILLED"
    requires now - Located(b, input.orderNumber).value.createdAt < (ReturnWindowDays + 1) * DayMs
    ensures Execute(b, input, now, stamp).Returned? && Execute(b, input, now, stamp).value.success
  {
    WithinWindowIff(now, Located(b, input.orderNumber).value.createdAt);
  }

  /** Without confirmation nothing is created: the summary and the days left
      in the window are shown. */
  lemma UnconfirmedSummarises(b: Backend, input: ReturnInput, now: int, stamp: nat)
    requires !input.customerConfirmed
    requires Located(b, input.orderNumber).Some?
    requires OwnsOrder(Located(b, input.orderNumber).value, input.customerEmail)
    requires Located(b, input.orderNumber).value.fulfillmentStatus == "FULFILLED"
    requires DaysSince(now, Located(b, input.orderNumber).value.createdAt) <= ReturnWindowDays
    ensures var o := Located(b, input.orderNumber).value;
      var r := Execute(b, input, now, stamp);
      && r.Returned? && !r.value.success && r.value.needsConfirmation && r.value.returnId.None?
      && r.value.message == Some(Summary(o.name, ItemSummary(input.items)))
      && r.value.daysRemaining == Some(ReturnWindowDays - DaysSince(now, o.createdAt))
  {
    var o := Located(b, input.orderNumber).value;
    assert VerifyOrderOwnership(b, input.orderNumber, input.customerEmail) == Returned(Verification(true, None, Some(o)));
  }
}
