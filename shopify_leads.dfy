/** Lead capture in `lib/shopify.ts`: a lead whose email already belongs to a
    customer updates that customer; any other lead creates a new customer
    tagged as a chatbot lead. */
module ShopifyLeads {
  import opened Base
  import opened Strings
  import opened Gateway

  /** The argument of `captureLeadInShopify`. */
  datatype LeadData = LeadData(
    email: string,
    firstName: Option<string>,
    lastName: Option<string>,
    phone: Option<string>,
    tags: Option<seq<string>>,
    note: Option<string>,
    marketingConsent: Option<bool>)

  datatype LeadResult = LeadSaved(isNew: bool) | LeadFailed(error: string)

  /** The mutation sent (at most one of the two) and the outcome. */
  datatype LeadRun = LeadRun(
    created: Option<CustomerCreateRequest>,
    updated: Option<CustomerUpdateRequest>,
    outcome: Call<LeadResult>)

  /** The part of an ISO timestamp before its first `T`. */
  function DatePart(iso: string): string {
    SplitOn(iso, 'T')[0]
  }

  lemma DatePartOf(date: string, time: string)
    requires 'T' !in date
    ensures DatePart(date + "T" + time) == date
  {
    var s := date + "T" + time;
    assert s[|date|] == 'T';
    var i := IndexOfChar(s, 'T');
    assert s[..|date|] == date;
    assert i == |date|;
  }

  /** `x || undefined` for an optional string. */
  function Defined(s: Option<string>): (r: Option<string>)
    ensures r.Some? <==> Truthy(s)
    ensures r.Some? ==> r == s
  {
    if Truthy(s) then s else None
  }

  /** The `customerCreate` input for a new lead captured at `nowIso`. */
  function CreateRequestFor(lead: LeadData, nowIso: string): (q: CustomerCreateRequest)
    ensures q.email == lead.email
    ensures q.firstName == OrElse(lead.firstName, "") && q.lastName == OrElse(lead.lastName, "")
    ensures q.phone == OrElse(lead.phone, "")
    ensures q.tags == lead.tags.GetOr([]) + ["chatbot-lead", "captured-" + DatePart(nowIso)]
    ensures q.note == OrElse(lead.note, "Lead captured via chatbot")
    ensures q.emailMarketingConsent.Some? <==> lead.marketingConsent == Some(true)
    ensures q.emailMarketingConsent.Some? ==>
      q.emailMarketingConsent.value == MarketingConsent("SUBSCRIBED", "SINGLE_OPT_IN", nowIso)
  {
    CustomerCreateRequest(
      lead.email,
      OrElse(lead.firstName, ""),
      OrElse(lead.lastName, ""),
      OrElse(lead.phone, ""),
      lead.tags.GetOr([]) + ["chatbot-lead", "captured-" + DatePart(nowIso)],
      OrElse(lead.note, "Lead captured via chatbot"),
      if lead.marketingConsent == Some(true) then Some(MarketingConsent("SUBSCRIBED", "SINGLE_OPT_IN", nowIso)) else None)
  }

  /** The `customerUpdate` input: empty optional fields are left out and the
      lead's tags are sent as they are. */
  function UpdateRequestFor(id: string, lead: LeadData): (q: CustomerUpdateRequest)
    ensures q.id == id
    ensures q.firstName == Defined(lead.firstName) && q.lastName == Defined(lead.lastName)
    ensures q.phone == Defined(lead.phone) && q.note == Defined(lead.note)
    ensures q.tags == lead.tags.GetOr([])
  {
    CustomerUpdateRequest(id, Defined(lead.firstName), Defined(lead.lastName), Defined(lead.phone),
      lead.tags.GetOr([]), Defined(lead.note))
  }

  function CaptureLeadInShopify(b: Backend, lead: LeadData, nowIso: string): (r: LeadRun)
    ensures r.created.None? || r.updated.None?
    ensures b.customerIdByEmail(lead.email).Threw? ==> r.outcome.Threw? && r.created.None? && r.updated.None?
    ensures b.customerIdByEmail(lead.email) == Returned(None) ==>
      r.updated.None? && r.created == Some(CreateRequestFor(lead, nowIso))
    ensures b.customerIdByEmail(lead.email).Returned? && b.customerIdByEmail(lead.email).value.Some? ==>
      r.created.None? && r.updated == Some(UpdateRequestFor(b.customerIdByEmail(lead.email).value.value, lead))
    ensures r.created.Some? ==>
      match b.createCustomer(r.created.value)
      case Threw => r.outcome.Threw?
      case Returned(reply) =>
        match MutationError(reply.errors, reply.userErrors)
        case Some(e) => r.outcome == Returned(LeadFailed(e))
        case None => r.outcome == Returned(LeadSaved(true))
    ensures r.updated.Some? ==>
      match b.updateCustomer(r.updated.value)
      case Threw => r.outcome.Threw?
      case Returned(reply) =>
        r.outcome == Returned(
          if MutationError(reply.errors, reply.userErrors).Some? then LeadFailed("Failed to update customer")
          else LeadSaved(false))
  {
    match b.customerIdByEmail(lead.email)
    case Threw => LeadRun(None, None, Threw)
    case Returned(Some(id)) =>
      var request := UpdateRequestFor(id, lead);
      (match b.updateCustomer(request)
       case Threw => LeadRun(None, Some(request), Threw)
       case Returned(reply) =>
         if reply.errors.Some? || (reply.userErrors.Some? && |reply.userErrors.value| > 0) then
           LeadRun(None, Some(request), Returned(LeadFailed("Failed to update customer")))
         else LeadRun(None, Some(request), Returned(LeadSaved(false))))
    case Returned(None) =>
      var request := CreateRequestFor(lead, nowIso);
      match b.createCustomer(request)
      case Threw => LeadRun(Some(request), None, Threw)
      case Returned(reply) =>
        match MutationError(reply.errors, reply.userErrors)
        case Some(e) => LeadRun(Some(request), None, Returned(LeadFailed(e)))
        case None => LeadRun(Some(request), None, Returned(LeadSaved(true)))
  }

  /** A saved lead is new exactly when it was created, and an existing
      customer is never created again. */
  lemma LeadSavedIsNewIffCreated(b: Backend, lead: LeadData, nowIso: string)
    requires CaptureLeadInShopify(b, lead, nowIso).outcome.Returned?
    requires CaptureLeadInShopify(b, lead, nowIso).outcome.value.LeadSaved?
    ensures var r := CaptureLeadInShopify(b, lead, nowIso);
      && (r.outcome.value.isNew <==> r.created.Some?)
      && (r.outcome.value.isNew <==> b.customerIdByEmail(lead.email) == Returned(None))
  {
  }

  /** A created customer carries the lead's own tags followed by the two
      capture tags, the second naming the capture date. */
  lemma CreatedTags(lead: LeadData, date: string, time: string)
    requires 'T' !in date
    ensures var tags := CreateRequestFor(lead, date + "T" + time).tags;
      && |tags| == |lead.tags.GetOr([])| + 2
      && tags[..|tags| - 2] == lead.tags.GetOr([])
      && tags[|tags| - 2] == "chatbot-lead"
      && tags[|tags| - 1] == "captured-" + date
  {
    DatePartOf(date, time);
  }
}
