/** Order ownership verification and the two order mutations of
    `lib/shopify.ts`: cancelling an order and changing its shipping address.
    Each is a guard chain over the order found by name; a mutation is sent
    only when every guard passes, and its reply is reduced to one outcome. */
module ShopifyOrders {
  import opened Base
  import opened Strings
  import opened Gateway

  // ---------------------------------------------------------------------
  // Order lookup
  // ---------------------------------------------------------------------

  /** The order name every lookup queries: the number with a leading `#`. */
  function Normalize(orderNumber: string): (r: string)
    ensures StartsWith(r, "#")
    ensures StartsWith(orderNumber, "#") ==> r == orderNumber
    ensures r[1..] == orderNumber || r == orderNumber
  {
    if StartsWith(orderNumber, "#") then orderNumber else "#" + orderNumber
  }

  lemma NormalizeIdempotent(orderNumber: string)
    ensures Normalize(Normalize(orderNumber)) == Normalize(orderNumber)
  {
  }

  /** Two order numbers name the same lookup exactly when they are equal or
      one is the other with a `#` put in front. */
  lemma NormalizeSameLookup(a: string, b: string)
    ensures Normalize(a) == Normalize(b) <==>
      (a == b || (a == "#" + b && !StartsWith(b, "#")) || (b == "#" + a && !StartsWith(a, "#")))
  {
    if Normalize(a) == Normalize(b) && !StartsWith(a, "#") && !StartsWith(b, "#") {
      assert ("#" + a)[1..] == a && ("#" + b)[1..] == b;
    }
    if a == "#" + b && !StartsWith(b, "#") {
      assert StartsWith(a, "#");
    }
    if b == "#" + a && !StartsWith(a, "#") {
      assert StartsWith(b, "#");
    }
  }

  /** The first order the store returns for the normalized name. */
  function FindOrder(b: Backend, orderNumber: string): Call<Option<Order>> {
    b.orderByName(Normalize(orderNumber))
  }

  /** The order found, when the lookup returned one. */
  function Located(b: Backend, orderNumber: string): (r: Option<Order>)
    ensures r.Some? <==> FindOrder(b, orderNumber).Returned? && FindOrder(b, orderNumber).value.Some?
    ensures r.Some? ==> FindOrder(b, orderNumber) == Returned(Some(r.value))
  {
    match FindOrder(b, orderNumber)
    case Returned(Some(o)) => Some(o)
    case _ => None
  }

  // ---------------------------------------------------------------------
  // Ownership verification
  // ---------------------------------------------------------------------

  /** An email as it is compared: lowercased, then trimmed. */
  function CanonEmail(email: string): (r: string)
    ensures IsLower(r)
    ensures r == [] || (!IsWhitespace(r[0]) && !IsWhitespace(r[|r| - 1]))
  {
    TrimPreservesLower(Lower(email));
    Trim(Lower(email))
  }

  lemma CanonEmailIdempotent(email: string)
    ensures CanonEmail(CanonEmail(email)) == CanonEmail(email)
  {
    var c := CanonEmail(email);
    LowerOfLower(c);
    TrimOfUntrimmed(c);
  }

  /** The given email matches the order's own email or its customer's email. */
  predicate OwnsOrder(o: Order, email: string) {
    || (o.email.Some? && CanonEmail(o.email.value) == CanonEmail(email))
    || (o.customerEmail.Some? && CanonEmail(o.customerEmail.value) == CanonEmail(email))
  }

  /** Why a verification failed. */
  datatype VerifyFailure = OrderNotFound | EmailMismatch

  function FailureText(f: VerifyFailure): string {
    match f
    case OrderNotFound => "Order not found"
    case EmailMismatch => "Email does not match our records"
  }

  /** `{ verified, reason, order }` of `verifyOrderOwnership`. */
  datatype Verification = Verification(verified: bool, reason: Option<VerifyFailure>, order: Option<Order>)

  /** The order is handed out only to a caller whose email matches it; a
      failed lookup propagates. */
  function VerifyOrderOwnership(b: Backend, orderNumber: string, email: string): (r: Call<Verification>)
    ensures r.Threw? <==> FindOrder(b, orderNumber).Threw?
    ensures r.Returned? ==>
      (r.value.verified <==> Located(b, orderNumber).Some? && OwnsOrder(Located(b, orderNumber).value, email))
    ensures r.Returned? && r.value.verified ==> r.value.order == Located(b, orderNumber) && r.value.reason == None
    ensures r.Returned? && !r.value.verified ==> r.value.order == None && r.value.reason.Some?
    ensures r.Returned? && !r.value.verified ==>
      r.value.reason == Some(if Located(b, orderNumber).None? then OrderNotFound else EmailMismatch)
  {
    match FindOrder(b, orderNumber)
    case Threw => Threw
    case Returned(None) => Returned(Verification(false, Some(OrderNotFound), None))
    case Returned(Some(o)) =>
      if OwnsOrder(o, email) then Returned(Verification(true, None, Some(o)))
      else Returned(Verification(false, Some(EmailMismatch), None))
  }

  /** Ownership depends on the email only through its canonical form. */
  lemma OwnsOrderSameEmail(o: Order, e1: string, e2: string)
    requires CanonEmail(e1) == CanonEmail(e2)
    ensures OwnsOrder(o, e1) == OwnsOrder(o, e2)
  {
  }

  /** Case and surrounding whitespace of the email do not matter. */
  lemma VerifyEmailCanonical(b: Backend, orderNumber: string, email: string)
    ensures VerifyOrderOwnership(b, orderNumber, CanonEmail(email)) == VerifyOrderOwnership(b, orderNumber, email)
  {
    match FindOrder(b, orderNumber)
    case Threw =>
    case Returned(None) =>
    case Returned(Some(o)) =>
      CanonEmailIdempotent(email);
      OwnsOrderSameEmail(o, CanonEmail(email), email);
  }

  /** Verifying "1001" is verifying "#1001". */
  lemma VerifyHashInsensitive(b: Backend, orderNumber: string, email: string)
    requires !StartsWith(orderNumber, "#")
    ensures VerifyOrderOwnership(b, "#" + orderNumber, email) == VerifyOrderOwnership(b, orderNumber, email)
  {
    NormalizeSameLookup("#" + orderNumber, orderNumber);
  }

  // ---------------------------------------------------------------------
  // Refusals
  // ---------------------------------------------------------------------

  /** Why an order mutation was refused; `normalized` is the `#` name looked up. */
  datatype OrderError =
    | NotFound(normalized: string)
    | AlreadyCancelled(normalized: string)
    | FulfilledNotCancellable(normalized: string)
    | CancelledNotAddressable(normalized: string)
    | AlreadyShipped(normalized: string)
    | BeingPrepared(normalized: string)
    | UnexpectedAddressError
    | StoreErrors(text: string)

  function ErrorText(e: OrderError): string {
    match e
    case NotFound(n) => "Order " + n + " not found"
    case AlreadyCancelled(n) => "Order " + n + " is already cancelled"
    case FulfilledNotCancellable(n) => "Order " + n + " has been fulfilled and cannot be cancelled."
    case CancelledNotAddressable(n) => "Order " + n + " has been cancelled"
    case AlreadyShipped(n) =>
      "Order " + n + " has already been shipped. We cannot change the address once an order is in transit."
    case BeingPrepared(n) =>
      "Order " + n + " is currently being prepared for shipment. The address may not be changeable at this point."
    case UnexpectedAddressError => "Unexpected error updating address"
    case StoreErrors(t) => t
  }

  /** What an address refusal advises. */
  datatype Suggestion = ContactCarrier | ContactSupport

  function SuggestionText(s: Suggestion): string {
    match s
    case ContactCarrier => "Please contact the shipping carrier directly to redirect the package."
    case ContactSupport => "Please contact support immediately at support@techgearsnowboards.com"
  }

  // ---------------------------------------------------------------------
  // Cancelling an order
  // ---------------------------------------------------------------------

  /** `mapCancelReasonGraphQL`: the first keyword found in the lowercased
      reason decides, in the order fraud, inventory or stock, declined, other;
      anything else is a customer cancellation. */
  function MapCancelReason(reason: Option<string>): (r: CancelReason)
    ensures var low := Lower(reason.GetOr(""));
      && (r == Fraud <==> Contains(low, "fraud"))
      && (r == Inventory <==> !Contains(low, "fraud") && (Contains(low, "inventory") || Contains(low, "stock")))
      && (r == Declined <==>
            !Contains(low, "fraud") && !Contains(low, "inventory") && !Contains(low, "stock") && Contains(low, "declined"))
      && (r == Other <==>
            !Contains(low, "fraud") && !Contains(low, "inventory") && !Contains(low, "stock")
            && !Contains(low, "declined") && Contains(low, "other"))
  {
    var low := Lower(reason.GetOr(""));
    if Contains(low, "fraud") then Fraud
    else if Contains(low, "inventory") || Contains(low, "stock") then Inventory
    else if Contains(low, "declined") then Declined
    else if Contains(low, "other") then Other
    else Customer
  }

  /** The mapping ignores letter case. */
  lemma MapCancelReasonCaseInsensitive(reason: string)
    ensures MapCancelReason(Some(Lower(reason))) == MapCancelReason(Some(reason))
  {
    LowerOfLower(Lower(reason));
  }

  /** No reason, and the tool's default "Customer request", are customer
      cancellations. */
  lemma MapCancelReasonNone()
    ensures MapCancelReason(None) == Customer
  {
    NoKeywordIsCustomer(None);
  }

  lemma MapCancelReasonCustomerRequest()
    ensures MapCancelReason(Some("Customer request")) == Customer
  {
    KeywordFreeAppend("Customer", " request");
    assert "Customer" + " request" == "Customer request";
    KeywordFreeIsCustomer("Customer request");
  }

  /** No character of `s` lowers to a letter that every keyword needs one of. */
  predicate KeywordFree(s: string) {
    forall i :: 0 <= i < |s| ==> !MissingLetter(LowerChar(s[i]))
  }

  predicate MissingLetter(c: char) {
    c == 'f' || c == 'i' || c == 'k' || c == 'd' || c == 'h'
  }

  lemma KeywordFreeAppend(a: string, b: string)
    requires KeywordFree(a) && KeywordFree(b)
    ensures KeywordFree(a + b)
  {
    assert forall i :: |a| <= i < |a + b| ==> (a + b)[i] == b[i - |a|];
  }

  lemma KeywordFreeIsCustomer(s: string)
    requires KeywordFree(s)
    ensures MapCancelReason(Some(s)) == Customer
  {
    NoKeywordIsCustomer(Some(s));
  }

  /** A reason lacking one letter of each keyword is a customer cancellation. */
  lemma NoKeywordIsCustomer(reason: Option<string>)
    requires var low := Lower(reason.GetOr(""));
      'f' !in low && 'i' !in low && 'k' !in low && 'd' !in low && 'h' !in low
    ensures MapCancelReason(reason) == Customer
  {
    var low := Lower(reason.GetOr(""));
    NotContainsMissingChar(low, "fraud", 'f');
    NotContainsMissingChar(low, "inventory", 'i');
    NotContainsMissingChar(low, "stock", 'k');
    NotContainsMissingChar(low, "declined", 'd');
    NotContainsMissingChar(low, "other", 'h');
  }

  /** An order may be cancelled when it is neither cancelled nor fulfilled. */
  predicate Cancellable(o: Order) {
    !Truthy(o.cancelledAt) && o.fulfillmentStatus != "FULFILLED"
  }

  /** A cancelled order is reported with `CancelledText` of its name. */
  datatype CancelOutcome = Cancelled(orderNumber: string) | CancelRefused(error: OrderError)

  function CancelledText(name: string): string {
    "Order " + name + " has been cancelled. Customer will be notified and refunded."
  }

  /** What `cancelOrder` sent to the store (`None`: no mutation) and what it
      resolved with. */
  datatype CancelRun = CancelRun(sent: Option<CancelRequest>, outcome: Call<CancelOutcome>)

  /** The `orderCancel` variables for an order: always notify, refund and restock. */
  function CancelRequestFor(o: Order, reason: Option<string>): (q: CancelRequest)
    ensures q.orderId == o.id && q.notifyCustomer && q.refund && q.restock
    ensures q.reason == MapCancelReason(reason)
  {
    CancelRequest(o.id, true, MapCancelReason(reason), true, true)
  }

  function CancelOrder(b: Backend, orderNumber: string, reason: Option<string>): (r: CancelRun)
    ensures r.sent.Some? <==> Located(b, orderNumber).Some? && Cancellable(Located(b, orderNumber).value)
    ensures r.sent.Some? ==> r.sent.value == CancelRequestFor(Located(b, orderNumber).value, reason)
    ensures FindOrder(b, orderNumber).Threw? ==> r.outcome.Threw?
    ensures FindOrder(b, orderNumber) == Returned(None) ==>
      r.outcome == Returned(CancelRefused(NotFound(Normalize(orderNumber))))
    ensures Located(b, orderNumber).Some? && !Cancellable(Located(b, orderNumber).value) ==>
      r.outcome == Returned(CancelRefused(
        if Truthy(Located(b, orderNumber).value.cancelledAt) then AlreadyCancelled(Normalize(orderNumber))
        else FulfilledNotCancellable(Normalize(orderNumber))))
    ensures r.sent.Some? ==>
      match b.cancelOrder(r.sent.value)
      case Threw => r.outcome.Threw?
      case Returned(reply) =>
        match MutationError(reply.errors, reply.userErrors)
        case Some(e) => r.outcome == Returned(CancelRefused(StoreErrors(e)))
        case None => r.outcome == Returned(Cancelled(Located(b, orderNumber).value.name))
  {
    var normalized := Normalize(orderNumber);
    match FindOrder(b, orderNumber)
    case Threw => CancelRun(None, Threw)
    case Returned(None) => CancelRun(None, Returned(CancelRefused(NotFound(normalized))))
    case Returned(Some(o)) =>
      if Truthy(o.cancelledAt) then
        CancelRun(None, Returned(CancelRefused(AlreadyCancelled(normalized))))
      else if o.fulfillmentStatus == "FULFILLED" then
        CancelRun(None, Returned(CancelRefused(FulfilledNotCancellable(normalized))))
      else
        var request := CancelRequestFor(o, reason);
        match b.cancelOrder(request)
        case Threw => CancelRun(Some(request), Threw)
        case Returned(reply) =>
          match MutationError(reply.errors, reply.userErrors)
          case Some(e) => CancelRun(Some(request), Returned(CancelRefused(StoreErrors(e))))
          case None => CancelRun(Some(request), Returned(Cancelled(o.name)))
  }

  /** A cancelled outcome means the order was found, was cancellable, and the
      store accepted the request. */
  lemma CancelledOnlyIfAccepted(b: Backend, orderNumber: string, reason: Option<string>)
    requires CancelOrder(b, orderNumber, reason).outcome.Returned?
    requires CancelOrder(b, orderNumber, reason).outcome.value.Cancelled?
    ensures Located(b, orderNumber).Some? && Cancellable(Located(b, orderNumber).value)
    ensures var o := Located(b, orderNumber).value;
      && b.cancelOrder(CancelRequestFor(o, reason)).Returned?
      && MutationError(b.cancelOrder(CancelRequestFor(o, reason)).value.errors,
                       b.cancelOrder(CancelRequestFor(o, reason)).value.userErrors).None?
  {
  }

  // ---------------------------------------------------------------------
  // Changing the shipping address
  // ---------------------------------------------------------------------

  /** The `newAddress` argument. */
  datatype AddressInput = AddressInput(
    address1: string,
    address2: Option<string>,
    city: string,
    province: string,
    zip: string,
    country: string,
    firstName: Option<string>,
    lastName: Option<string>,
    phone: Option<string>)

  /** The address as sent: required fields unchanged, optional ones `|| ""`. */
  function ShippingInputOf(a: AddressInput): (s: ShippingAddressInput)
    ensures s.address1 == a.address1 && s.city == a.city && s.provinceCode == a.province
    ensures s.zip == a.zip && s.countryCode == a.country
    ensures s.address2 == OrElse(a.address2, "") && s.phone == OrElse(a.phone, "")
    ensures s.firstName == OrElse(a.firstName, "") && s.lastName == OrElse(a.lastName, "")
  {
    ShippingAddressInput(a.address1, OrElse(a.address2, ""), a.city, a.province, a.zip, a.country,
      OrElse(a.firstName, ""), OrElse(a.lastName, ""), OrElse(a.phone, ""))
  }

  /** An order may be re-addressed when it is not cancelled, not fulfilled and
      not being prepared. */
  predicate Readdressable(o: Order) {
    !Truthy(o.cancelledAt) && o.fulfillmentStatus != "FULFILLED" && o.fulfillmentStatus != "IN_PROGRESS"
  }

  /** An updated order is reported with `AddressUpdatedText`. */
  datatype AddressOutcome =
    | AddressUpdated(orderNumber: string, newAddress: Option<MailingAddress>)
    | AddressRefused(error: OrderError, suggestion: Option<Suggestion>)

  const AddressUpdatedText := "Shipping address updated successfully!"

  datatype AddressRun = AddressRun(sent: Option<AddressUpdateRequest>, outcome: Call<AddressOutcome>)

  /** The refusal for an order that fails a guard, checked in the order
      cancelled, fulfilled, in progress. */
  function AddressRefusal(o: Order, normalized: string): (r: Option<AddressOutcome>)
    ensures r.None? <==> Readdressable(o)
    ensures Truthy(o.cancelledAt) ==> r == Some(AddressRefused(CancelledNotAddressable(normalized), None))
    ensures !Truthy(o.cancelledAt) && o.fulfillmentStatus == "FULFILLED" ==>
      r == Some(AddressRefused(AlreadyShipped(normalized), Some(ContactCarrier)))
    ensures !Truthy(o.cancelledAt) && o.fulfillmentStatus == "IN_PROGRESS" ==>
      r == Some(AddressRefused(BeingPrepared(normalized), Some(ContactSupport)))
  {
    if Truthy(o.cancelledAt) then Some(AddressRefused(CancelledNotAddressable(normalized), None))
    else if o.fulfillmentStatus == "FULFILLED" then Some(AddressRefused(AlreadyShipped(normalized), Some(ContactCarrier)))
    else if o.fulfillmentStatus == "IN_PROGRESS" then Some(AddressRefused(BeingPrepared(normalized), Some(ContactSupport)))
    else None
  }

  function UpdateOrderShippingAddress(b: Backend, orderNumber: string, a: AddressInput): (r: AddressRun)
    ensures r.sent.Some? <==> Located(b, orderNumber).Some? && Readdressable(Located(b, orderNumber).value)
    ensures r.sent.Some? ==>
      r.sent.value == AddressUpdateRequest(Located(b, orderNumber).value.id, ShippingInputOf(a))
    ensures FindOrder(b, orderNumber).Threw? ==> r.outcome.Threw?
    ensures FindOrder(b, orderNumber) == Returned(None) ==>
      r.outcome == Returned(AddressRefused(NotFound(Normalize(orderNumber)), None))
    ensures Located(b, orderNumber).Some? && !Readdressable(Located(b, orderNumber).value) ==>
      r.outcome == Returned(AddressRefusal(Located(b, orderNumber).value, Normalize(orderNumber)).value)
    ensures r.sent.Some? ==>
      match b.updateAddress(r.sent.value)
      case Threw => r.outcome.Threw?
      case Returned(reply) =>
        match MutationError(reply.errors, reply.userErrors)
        case Some(e) => r.outcome == Returned(AddressRefused(StoreErrors(e), None))
        case None =>
          match reply.order
          case Some(u) => r.outcome == Returned(AddressUpdated(u.name, u.shippingAddress))
          case None => r.outcome == Returned(AddressRefused(UnexpectedAddressError, None))
  {
    var normalized := Normalize(orderNumber);
    match FindOrder(b, orderNumber)
    case Threw => AddressRun(None, Threw)
    case Returned(None) => AddressRun(None, Returned(AddressRefused(NotFound(normalized), None)))
    case Returned(Some(o)) =>
      match AddressRefusal(o, normalized)
      case Some(refusal) => AddressRun(None, Returned(refusal))
      case None =>
        var request := AddressUpdateRequest(o.id, ShippingInputOf(a));
        match b.updateAddress(request)
        case Threw => AddressRun(Some(request), Threw)
        case Returned(reply) =>
          match MutationError(reply.errors, reply.userErrors)
          case Some(e) => AddressRun(Some(request), Returned(AddressRefused(StoreErrors(e), None)))
          case None =>
            match reply.order
            case Some(u) => AddressRun(Some(request), Returned(AddressUpdated(u.name, u.shippingAddress)))
            case None => AddressRun(Some(request), Returned(AddressRefused(UnexpectedAddressError, None)))
  }
}
