/** The update-shipping-address tool (`lib/ai/tools/update-shipping-address.ts`):
    verify the caller's email, refuse shipped and cancelled orders, show the
    new address for confirmation, and only then update it through the library. */
module UpdateShippingAddressTool {
  import opened Base
  import opened Strings
  import opened Seqs
  import opened Gateway
  import opened ShopifyOrders

  // ---------------------------------------------------------------------
  // Formatting an address
  // ---------------------------------------------------------------------

  /** The fields `formatAddress` reads. A missing field is `None`; `city`,
      `province` and `zip` are already rendered as a template literal
      renders them. */
  datatype AddressView = AddressView(
    firstName: Option<string>,
    lastName: Option<string>,
    address1: Option<string>,
    address2: Option<string>,
    city: string,
    province: string,
    zip: string,
    country: Option<string>,
    phone: Option<string>)

  /** The address the customer proposed (every required field is present). */
  function ViewOfInput(a: AddressInput): AddressView {
    AddressView(a.firstName, a.lastName, Some(a.address1), a.address2, a.city, a.province, a.zip,
      Some(a.country), a.phone)
  }

  /** The address the store returned; a null field renders as "null" in the
      city line, and the store's reply has no phone. */
  function ViewOfMailing(m: MailingAddress): AddressView {
    AddressView(m.firstName, m.lastName, m.address1, m.address2,
      Interpolate(m.city), Interpolate(m.province), Interpolate(m.zip), m.country, None)
  }

  function CityLine(v: AddressView): string {
    v.city + ", " + v.province + " " + v.zip
  }

  predicate Named(v: AddressView) {
    Truthy(v.firstName) && Truthy(v.lastName)
  }

  /** The six candidate lines before `filter(Boolean)`. */
  function Candidates(v: AddressView): seq<Option<string>> {
    [ if Named(v) then Some(v.firstName.value + " " + v.lastName.value) else None,
      v.address1,
      v.address2,
      Some(CityLine(v)),
      v.country,
      if Truthy(v.phone) then Some("Phone: " + v.phone.value) else None ]
  }

  function ValueOf(s: Option<string>): string {
    s.GetOr("")
  }

  /** The line a candidate contributes: its text when it is non-empty,
      nothing otherwise. */
  function KeptLine(c: Option<string>): seq<string> {
    if Truthy(c) then [c.value] else []
  }

  /** The lines kept by `filter(Boolean)`: each candidate in turn
      contributes its text when it is non-empty and nothing otherwise. */
  function AddressLines(v: AddressView): (r: seq<string>)
    ensures r == Flatten(KeptLine, Candidates(v))
    ensures |r| <= 6
    ensures forall k :: 0 <= k < |r| ==> r[k] != "" && Some(r[k]) in Candidates(v)
    ensures forall c :: c in Candidates(v) && Truthy(c) ==> c.value in r
  {
    KeptLines(Candidates(v));
    Map(ValueOf, Filter(Truthy, Candidates(v)))
  }

  /** Filtering out the empty candidates and taking their texts is
      collecting the line of every candidate in order. */
  lemma {:induction false} KeptLines(cs: seq<Option<string>>)
    ensures Map(ValueOf, Filter(Truthy, cs)) == Flatten(KeptLine, cs)
    ensures |Flatten(KeptLine, cs)| <= |cs|
    ensures forall k :: 0 <= k < |Flatten(KeptLine, cs)| ==>
      Flatten(KeptLine, cs)[k] != "" && Some(Flatten(KeptLine, cs)[k]) in cs
    ensures forall c :: c in cs && Truthy(c) ==> c.value in Flatten(KeptLine, cs)
    decreases |cs|
  {
    if cs != [] {
      KeptLines(cs[1..]);
      var rest := Flatten(KeptLine, cs[1..]);
      assert cs == [cs[0]] + cs[1..];
      FilterCons(Truthy, cs[0], cs[1..]);
      var lines := Flatten(KeptLine, cs);
      assert lines == KeptLine(cs[0]) + rest;
      if Truthy(cs[0]) {
        MapCons(ValueOf, cs[0], Filter(Truthy, cs[1..]));
        assert lines == [cs[0].value] + rest;
        assert forall k :: 0 < k < |lines| ==> lines[k] == rest[k - 1];
      } else {
        assert lines == rest;
      }
    }
  }

  /** `formatAddress`: the kept lines joined by newlines. */
  function FormatAddress(v: AddressView): string {
    Join(AddressLines(v), "\n")
  }

  /** The city line is never filtered out, so it always shows. */
  lemma FormatAddressShowsCityLine(v: AddressView)
    ensures CityLine(v) in AddressLines(v)
    ensures Contains(FormatAddress(v), CityLine(v))
  {
    assert Candidates(v)[3] == Some(CityLine(v));
    var lines := AddressLines(v);
    JoinContainsParts(lines, "\n");
    var k :| 0 <= k < |lines| && lines[k] == CityLine(v);
  }

  /** The name line shows, first, exactly when both names are given; the
      phone line shows, last, exactly when a phone is given; between them
      come the non-empty street lines, the city line and the country. */
  lemma FormatAddressOptionalLines(v: AddressView)
    ensures Named(v) ==> v.firstName.value + " " + v.lastName.value in AddressLines(v)
    ensures Truthy(v.phone) ==> "Phone: " + v.phone.value in AddressLines(v)
    ensures AddressLines(v)
      == (if Named(v) then [v.firstName.value + " " + v.lastName.value] else [])
       + KeptLine(v.address1) + KeptLine(v.address2) + [CityLine(v)] + KeptLine(v.country)
       + (if Truthy(v.phone) then ["Phone: " + v.phone.value] else [])
  {
    var c := Candidates(v);
    if Named(v) {
      assert c[0] in c;
    }
    if Truthy(v.phone) {
      assert c[5] in c;
    }
    assert KeptLine(c[3]) == [CityLine(v)] by {
      assert CityLine(v)[|v.city|] == ',';
    }
    FlattenSix(KeptLine, c[0], c[1], c[2], c[3], c[4], c[5]);
    assert c == [c[0], c[1], c[2], c[3], c[4], c[5]];
  }

  predicate NoNewline(s: Option<string>) {
    s.None? || '\n' !in s.value
  }

  predicate FieldsWithoutNewline(v: AddressView) {
    && NoNewline(v.firstName) && NoNewline(v.lastName) && NoNewline(v.address1)
    && NoNewline(v.address2) && NoNewline(v.country) && NoNewline(v.phone)
    && '\n' !in v.city && '\n' !in v.province && '\n' !in v.zip
  }

  lemma CandidatesWithoutNewline(v: AddressView)
    requires FieldsWithoutNewline(v)
    ensures forall j :: 0 <= j < |Candidates(v)| ==> NoNewline(Candidates(v)[j])
  {
    var c := Candidates(v);
    if Named(v) {
      assert c[0].value == v.firstName.value + " " + v.lastName.value;
    }
    assert c[3].value == v.city + ", " + v.province + " " + v.zip;
    if Truthy(v.phone) {
      assert c[5].value == "Phone: " + v.phone.value;
    }
  }

  /** When no field holds a newline, splitting the text on newlines gives
      back the lines. */
  lemma FormatAddressSplits(v: AddressView)
    requires FieldsWithoutNewline(v)
    ensures SplitOn(FormatAddress(v), '\n') == AddressLines(v)
  {
    var lines := AddressLines(v);
    FormatAddressShowsCityLine(v);
    CandidatesWithoutNewline(v);
    forall k | 0 <= k < |lines| ensures '\n' !in lines[k] {
      var j :| 0 <= j < |Candidates(v)| && Candidates(v)[j] == Some(lines[k]);
    }
    assert "\n" == ['\n'];
    SplitOnJoin(lines, '\n');
  }

  // ---------------------------------------------------------------------
  // The tool
  // ---------------------------------------------------------------------

  datatype AddressToolInput = AddressToolInput(
    orderNumber: string,
    customerEmail: string,
    newAddress: AddressInput,
    customerConfirmed: bool)

  /** The texts the tool replies with; `Text` gives the wording. */
  datatype AddressText =
    | IdentityUnverified
    | NotVerified(failure: VerifyFailure)
    | OrderShippedShort
    | ShippedInTransit(name: string)
    | OrderCancelledShort
    | CancelledUnmodifiable(name: string)
    | ConfirmNewAddress(name: string, formatted: string)
    | UpdatedFor(orderNumber: string)
    | ConfirmationEmailNote
    | Refused(error: OrderError)
    | UpdateWentWrong

  function Text(t: AddressText): string {
    match t
    case IdentityUnverified => "I couldn't verify your identity. Please check your order number and email."
    case NotVerified(f) => FailureText(f)
    case OrderShippedShort => "Order already shipped"
    case ShippedInTransit(n) =>
      "Order " + n + " has already been shipped. Unfortunately, we can't change the address once it's in transit."
        + " You may be able to contact the carrier to redirect the package."
    case OrderCancelledShort => "Order cancelled"
    case CancelledUnmodifiable(n) => "Order " + n + " has been cancelled and cannot be modified."
    case ConfirmNewAddress(n, f) =>
      "Please confirm the new shipping address for order " + n + ":\n\n" + f
        + "\n\nIs this correct? Reply \"Yes, update my address\" to confirm."
    case UpdatedFor(n) => "Shipping address updated for order " + n + "!"
    case ConfirmationEmailNote => "You'll receive a confirmation email with the updated details."
    case Refused(e) => ErrorText(e)
    case UpdateWentWrong =>
      "Something went wrong while updating the address. Please try again or contact support."
  }

  /** The tool's reply; absent fields are `None`, an absent
      `needsConfirmation` is `false`. */
  datatype AddressReply = AddressReply(
    success: bool,
    verified: Option<bool>,
    needsConfirmation: bool,
    updated: Option<bool>,
    orderNumber: Option<string>,
    currentStatus: Option<string>,
    proposedAddress: Option<string>,
    newAddress: Option<string>,
    message: Option<AddressText>,
    error: Option<AddressText>,
    suggestion: Option<Suggestion>,
    note: Option<AddressText>)

  function Refusal(error: AddressText, message: Option<AddressText>, suggestion: Option<Suggestion>): AddressReply {
    AddressReply(false, Some(true), false, None, None, None, None, None, message, Some(error), suggestion, None)
  }

  /** The update request sent to the store, if any, and the reply; a failed
      ownership lookup rejects the whole call. */
  datatype AddressToolRun = AddressToolRun(sent: Option<AddressUpdateRequest>, reply: Call<AddressReply>)

  /** An update is sent only for a verified, confirmed request on an order
      that is neither shipped, cancelled nor being prepared; success means the
      store returned the updated order and its address. */
  function Execute(b: Backend, input: AddressToolInput): (r: AddressToolRun)
    ensures r.sent.Some? ==>
      && input.customerConfirmed
      && Located(b, input.orderNumber).Some?
      && OwnsOrder(Located(b, input.orderNumber).value, input.customerEmail)
      && Readdressable(Located(b, input.orderNumber).value)
      && r.sent.value == AddressUpdateRequest(Located(b, input.orderNumber).value.id, ShippingInputOf(input.newAddress))
    ensures r.reply.Returned? && r.reply.value.success ==>
      r.sent.Some? && r.reply.value.updated == Some(true) && r.reply.value.newAddress.Some?
    ensures r.reply.Returned? && r.reply.value.error == Some(UpdateWentWrong) ==>
      input.customerConfirmed && r.reply.value.verified == Some(true)
  {
    match VerifyOrderOwnership(b, input.orderNumber, input.customerEmail)
    case Threw => AddressToolRun(None, Threw)
    case Returned(v) =>
      if !v.verified then
        AddressToolRun(None, Returned(AddressReply(false, Some(false), false, None, None, None, None, None,
          Some(IdentityUnverified), Some(NotVerified(v.reason.value)), None, None)))
      else
        var o := v.order.value;
        if o.fulfillmentStatus == "FULFILLED" then
          AddressToolRun(None, Returned(Refusal(OrderShippedShort, Some(ShippedInTransit(o.name)), None)))
        else if Truthy(o.cancelledAt) then
          AddressToolRun(None, Returned(Refusal(OrderCancelledShort, Some(CancelledUnmodifiable(o.name)), None)))
        else if !input.customerConfirmed then
          var formatted := FormatAddress(ViewOfInput(input.newAddress));
          AddressToolRun(None, Returned(AddressReply(false, Some(true), true, None, Some(o.name),
            Some(StrOr(o.fulfillmentStatus, "Unfulfilled")), Some(formatted), None,
            Some(ConfirmNewAddress(o.name, formatted)), None, None, None)))
        else
          var run := UpdateOrderShippingAddress(b, input.orderNumber, input.newAddress);
          match run.outcome
          case Threw => AddressToolRun(run.sent, Returned(Refusal(UpdateWentWrong, None, None)))
          case Returned(AddressRefused(e, s)) => AddressToolRun(run.sent, Returned(Refusal(Refused(e), None, s)))
          case Returned(AddressUpdated(n, None)) =>
            // formatting a null address throws inside the tool's `try`
            AddressToolRun(run.sent, Returned(Refusal(UpdateWentWrong, None, None)))
          case Returned(AddressUpdated(n, Some(m))) =>
            AddressToolRun(run.sent, Returned(AddressReply(true, Some(true), false, Some(true), Some(n), None, None,
              Some(FormatAddress(ViewOfMailing(m))), Some(UpdatedFor(n)), None, None, Some(ConfirmationEmailNote))))
  }

  /** A rejected ownership lookup rejects the call; a failed verification
      says so, gives the reason and sends nothing. */
  lemma VerificationGate(b: Backend, input: AddressToolInput)
    ensures FindOrder(b, input.orderNumber).Threw? ==> Execute(b, input) == AddressToolRun(None, Threw)
    ensures (Located(b, input.orderNumber).Some?
             && !OwnsOrder(Located(b, input.orderNumber).value, input.customerEmail)) ==>
      Execute(b, input) == AddressToolRun(None, Returned(AddressReply(false, Some(false), false, None, None, None,
        None, None, Some(IdentityUnverified), Some(NotVerified(EmailMismatch)), None, None)))
    ensures FindOrder(b, input.orderNumber) == Returned(None) ==>
      Execute(b, input) == AddressToolRun(None, Returned(AddressReply(false, Some(false), false, None, None, None,
        None, None, Some(IdentityUnverified), Some(NotVerified(OrderNotFound)), None, None)))
  {
  }

  /** The tool checks shipment before cancellation (the library checks them
      the other way round): a cancelled order that was also fulfilled is
      refused as shipped. */
  lemma ShippedBeforeCancelled(b: Backend, input: AddressToolInput)
    requires Located(b, input.orderNumber).Some?
    requires OwnsOrder(Located(b, input.orderNumber).value, input.customerEmail)
    ensures var o := Located(b, input.orderNumber).value;
      var r := Execute(b, input);
      && (o.fulfillmentStatus == "FULFILLED" ==>
            r == AddressToolRun(None, Returned(Refusal(OrderShippedShort, Some(ShippedInTransit(o.name)), None))))
      && (o.fulfillmentStatus != "FULFILLED" && Truthy(o.cancelledAt) ==>
            r == AddressToolRun(None, Returned(Refusal(OrderCancelledShort, Some(CancelledUnmodifiable(o.name)), None))))
  {
  }

  /** Without confirmation the tool shows the formatted proposal and the
      current status, and sends nothing. */
  lemma UnconfirmedShowsProposal(b: Backend, input: AddressToolInput)
    requires !input.customerConfirmed
    requires Located(b, input.orderNumber).Some?
    requires OwnsOrder(Located(b, input.orderNumber).value, input.customerEmail)
    requires Located(b, input.orderNumber).value.fulfillmentStatus != "FULFILLED"
    requires !Truthy(Located(b, input.orderNumber).value.cancelledAt)
    ensures var o := Located(b, input.orderNumber).value;
      var r := Execute(b, input);
      var formatted := FormatAddress(ViewOfInput(input.newAddress));
      && r.sent.None? && r.reply.Returned? && r.reply.value.needsConfirmation
      && r.reply.value.proposedAddress == Some(formatted)
      && r.reply.value.message == Some(ConfirmNewAddress(o.name, formatted))
      && r.reply.value.currentStatus == Some(if o.fulfillmentStatus == "" then "Unfulfilled" else o.fulfillmentStatus)
  {
  }

  /** An order being prepared passes the tool's own guards, is offered for
      confirmation, and once confirmed is refused by the library without any
      update being sent. */
  lemma PreparingRefusedByLibrary(b: Backend, input: AddressToolInput)
    requires input.customerConfirmed
    requires Located(b, input.orderNumber).Some?
    requires OwnsOrder(Located(b, input.orderNumber).value, input.customerEmail)
    requires Located(b, input.orderNumber).value.fulfillmentStatus == "IN_PROGRESS"
    requires !Truthy(Located(b, input.orderNumber).value.cancelledAt)
    ensures Execute(b, input) ==
      AddressToolRun(None, Returned(Refusal(Refused(BeingPrepared(Normalize(input.orderNumber))), None, Some(ContactSupport))))
  {
  }

  /** A confirmed request on a re-addressable order sends the customer's
      address. */
  lemma ConfirmedSends(b: Backend, input: AddressToolInput)
    requires input.customerConfirmed
    requires Located(b, input.orderNumber).Some?
    requires OwnsOrder(Located(b, input.orderNumber).value, input.customerEmail)
    requires Readdressable(Located(b, input.orderNumber).value)
    ensures Execute(b, input).sent ==
      Some(AddressUpdateRequest(Located(b, input.orderNumber).value.id, ShippingInputOf(input.newAddress)))
  {
  }

  /** After the update is sent, the library's outcome decides the reply: the
      address the store now holds is shown, a refusal is passed on with its
      suggestion, and a rejected request or a missing address is the generic
      failure. */
  lemma ConfirmedReplies(b: Backend, input: AddressToolInput)
    requires input.customerConfirmed
    requires Located(b, input.orderNumber).Some?
    requires OwnsOrder(Located(b, input.orderNumber).value, input.customerEmail)
    requires Readdressable(Located(b, input.orderNumber).value)
    ensures var r := Execute(b, input).reply;
      match UpdateOrderShippingAddress(b, input.orderNumber, input.newAddress).outcome
      case Threw => r == Returned(Refusal(UpdateWentWrong, None, None))
      case Returned(AddressRefused(e, s)) => r == Returned(Refusal(Refused(e), None, s))
      case Returned(AddressUpdated(n, None)) => r == Returned(Refusal(UpdateWentWrong, None, None))
      case Returned(AddressUpdated(n, Some(m))) =>
        r.Returned? && r.value.success && r.value.orderNumber == Some(n)
        && r.value.newAddress == Some(FormatAddress(ViewOfMailing(m)))
  {
  }
}
