/** The capture-lead tool (`lib/ai/tools/capture-lead.ts`): tag and annotate a
    lead, save it through the library, and answer according to why the
    customer gave their email. */
module CaptureLeadTool {
  import opened Base
  import opened Strings
  import opened Seqs
  import opened Gateway
  import opened ShopifyLeads

  datatype LeadSource = RestockNotification | ProductInquiry | Newsletter | QuoteRequest | General

  function SourceName(s: LeadSource): string {
    match s
    case RestockNotification => "restock_notification"
    case ProductInquiry => "product_inquiry"
    case Newsletter => "newsletter"
    case QuoteRequest => "quote_request"
    case General => "general"
  }

  datatype LeadInput = LeadInput(
    email: string,
    firstName: Option<string>,
    lastName: Option<string>,
    phone: Option<string>,
    interest: string,
    marketingConsent: bool,
    source: LeadSource)

  // ---------------------------------------------------------------------
  // The interest tag
  // ---------------------------------------------------------------------

  /** `s.replace(/\s+/g, '-')`: every maximal run of whitespace becomes one `-`. */
  function ReplaceWsRuns(s: string): (r: string)
    ensures NoWhitespace(r)
    ensures |r| <= |s|
    decreases |s|
  {
    var i := NonWsPrefix(s);
    if i == |s| then s
    else
      var j := i + WsPrefix(s[i..]);
      var rest := ReplaceWsRuns(s[j..]);
      assert NoWhitespace(s[..i] + "-");
      s[..i] + "-" + rest
  }

  /** Replacing the runs is joining the fields of `split(/\s+/)` with `-`. */
  lemma {:induction false} ReplaceWsRunsIsJoin(s: string)
    ensures ReplaceWsRuns(s) == Join(SplitWs(s), "-")
    decreases |s|
  {
    var i := NonWsPrefix(s);
    if i < |s| {
      var j := i + WsPrefix(s[i..]);
      ReplaceWsRunsIsJoin(s[j..]);
      var tail := SplitWs(s[j..]);
      assert SplitWs(s) == [s[..i]] + tail;
      assert ([s[..i]] + tail)[1..] == tail;
    }
  }

  /** A string without whitespace is left as it is. */
  lemma ReplaceWsRunsOfNoWhitespace(s: string)
    requires NoWhitespace(s)
    ensures ReplaceWsRuns(s) == s
  {
  }

  /** The interest as a tag value: lower-cased, runs of whitespace as `-`,
      at most 50 characters. */
  function InterestSlug(interest: string): (r: string)
    ensures |r| <= 50 && NoWhitespace(r) && IsLower(r)
    ensures r <= ReplaceWsRuns(Lower(interest))
    ensures |r| == if |ReplaceWsRuns(Lower(interest))| < 50 then |ReplaceWsRuns(Lower(interest))| else 50
  {
    var replaced := ReplaceWsRuns(Lower(interest));
    LowerKept(Lower(interest));
    Take(replaced, 50)
  }

  /** Replacing whitespace runs keeps a lower-case string lower-case. */
  lemma {:induction false} LowerKept(s: string)
    requires IsLower(s)
    ensures IsLower(ReplaceWsRuns(s))
    decreases |s|
  {
    var i := NonWsPrefix(s);
    if i < |s| {
      var j := i + WsPrefix(s[i..]);
      assert IsLower(s[j..]);
      LowerKept(s[j..]);
      assert IsLower(s[..i] + "-");
    }
  }

  /** Re-slugging a slug changes nothing. */
  lemma InterestSlugIdempotent(interest: string)
    ensures InterestSlug(InterestSlug(interest)) == InterestSlug(interest)
  {
    var r := InterestSlug(interest);
    LowerOfLower(r);
    ReplaceWsRunsOfNoWhitespace(r);
  }

  // ---------------------------------------------------------------------
  // The lead handed to the library
  // ---------------------------------------------------------------------

  /** The four tags, then `marketing-consent` when the customer agreed. */
  function LeadTags(input: LeadInput, nowIso: string): (tags: seq<string>)
    ensures |tags| == if input.marketingConsent then 5 else 4
    ensures tags[..4] == ["chatbot-lead", "source:" + SourceName(input.source),
      "interest:" + InterestSlug(input.interest), "captured:" + DatePart(nowIso)]
    ensures "marketing-consent" in tags <==> input.marketingConsent
  {
    var tags := ["chatbot-lead", "source:" + SourceName(input.source),
      "interest:" + InterestSlug(input.interest), "captured:" + DatePart(nowIso)];
    assert "marketing-consent" !in tags by {
      assert |tags[1]| > 0 && tags[1][0] == 's' && tags[2][0] == 'i' && tags[3][0] == 'c';
      assert tags[0] != "marketing-consent";
    }
    if input.marketingConsent then tags + ["marketing-consent"] else tags
  }

  /** The note's lines between the template's leading newline and its
      trailing indentation. */
  function NoteBody(input: LeadInput, nowIso: string): string {
    "Lead captured via chatbot\n        Source: " + SourceName(input.source)
      + "\n        Interest: " + input.interest
      + "\n        Marketing consent: " + (if input.marketingConsent then "Yes" else "No")
      + "\n        Captured at: " + nowIso
  }

  /** The note template, then `.trim()`. */
  function LeadNote(input: LeadInput, nowIso: string): string {
    Trim("\n        " + NoteBody(input, nowIso) + "\n      ")
  }

  /** The trim removes exactly the template's leading newline and trailing
      indentation when the timestamp does not end in whitespace. */
  lemma LeadNoteIsBody(input: LeadInput, nowIso: string)
    requires |nowIso| > 0 && !IsWhitespace(nowIso[|nowIso| - 1])
    ensures LeadNote(input, nowIso) == NoteBody(input, nowIso)
  {
    var body := NoteBody(input, nowIso);
    var first := "Lead captured via chatbot\n        Source: ";
    assert body == first + (body[|first|..]);
    assert first[0] == 'L';
    assert body[|body| - 1] == nowIso[|nowIso| - 1];
    TrimAround("\n        ", body, "\n      ");
  }

  /** The tool's argument to `captureLeadInShopify`. */
  function LeadFor(input: LeadInput, nowIso: string): (lead: LeadData)
    ensures lead.email == input.email
    ensures lead.firstName == input.firstName && lead.lastName == input.lastName && lead.phone == input.phone
    ensures lead.tags == Some(LeadTags(input, nowIso)) && lead.note == Some(LeadNote(input, nowIso))
    ensures lead.marketingConsent == Some(input.marketingConsent)
  {
    LeadData(input.email, input.firstName, input.lastName, input.phone,
      Some(LeadTags(input, nowIso)), Some(LeadNote(input, nowIso)), Some(input.marketingConsent))
  }

  /** A new customer carries the tool's tags and then the library's own, so
      `chatbot-lead` is sent twice; it is subscribed to marketing exactly
      when the customer agreed. */
  lemma NewCustomerFromLead(input: LeadInput, nowIso: string)
    ensures var q := CreateRequestFor(LeadFor(input, nowIso), nowIso);
      && q.tags == LeadTags(input, nowIso) + ["chatbot-lead", "captured-" + DatePart(nowIso)]
      && q.tags[0] == "chatbot-lead" && q.tags[|q.tags| - 2] == "chatbot-lead"
      && (q.emailMarketingConsent.Some? <==> input.marketingConsent)
  {
  }

  /** An existing customer is sent the tool's tags as they are. */
  lemma ExistingCustomerFromLead(id: string, input: LeadInput, nowIso: string)
    ensures UpdateRequestFor(id, LeadFor(input, nowIso)).tags == LeadTags(input, nowIso)
  {
  }

  // ---------------------------------------------------------------------
  // The tool
  // ---------------------------------------------------------------------

  /** The texts the tool replies with; `Text` gives the wording. */
  datatype LeadText =
    | SaveFailed
    | Saved(source: LeadSource, interest: string, email: string)
    | SomethingWrong

  function Text(t: LeadText): string {
    match t
    case SaveFailed => "Sorry, I couldn't save your information. Please try again."
    case Saved(RestockNotification, i, e) =>
      "I've added you to our restock notification list for " + i + ". We'll email you at " + e
        + " as soon as it's back in stock!"
    case Saved(ProductInquiry, i, e) =>
      "I've saved your information. Our team will follow up with you at " + e + " regarding " + i + "."
    case Saved(Newsletter, _, e) => "You're all set! You'll receive our updates at " + e + "."
    case Saved(QuoteRequest, i, e) => "Our team will prepare a quote for " + i + " and send it to " + e + " shortly."
    case Saved(General, _, e) => "I've saved your contact information. We'll be in touch at " + e + "."
    case SomethingWrong => "Sorry, something went wrong. Please try again later."
  }

  datatype LeadDetails = LeadDetails(email: string, name: string, interest: string, source: LeadSource, marketingConsent: bool)

  /** The tool's reply; absent fields are `None`. */
  datatype LeadReply = LeadReply(
    success: bool,
    isNewLead: Option<bool>,
    message: LeadText,
    error: Option<string>,
    details: Option<LeadDetails>)

  /** What the library did, and the reply; every failure is caught. */
  datatype LeadToolRun = LeadToolRun(run: LeadRun, reply: LeadReply)

  /** `nowIso` is the one clock reading used for the tags, the note and the
      library's consent time. */
  function Execute(b: Backend, input: LeadInput, nowIso: string): (r: LeadToolRun)
    ensures r.run == CaptureLeadInShopify(b, LeadFor(input, nowIso), nowIso)
    ensures r.reply.success <==> r.run.outcome.Returned? && r.run.outcome.value.LeadSaved?
    ensures r.reply.success ==>
      && r.reply.isNewLead == Some(r.run.outcome.value.isNew)
      && r.reply.message == Saved(input.source, input.interest, input.email)
      && r.reply.details == Some(LeadDetails(input.email, OrElse(input.firstName, "Not provided"),
           input.interest, input.source, input.marketingConsent))
    ensures r.run.outcome.Returned? && r.run.outcome.value.LeadFailed? ==>
      r.reply == LeadReply(false, None, SaveFailed, Some(r.run.outcome.value.error), None)
    ensures r.run.outcome.Threw? ==> r.reply == LeadReply(false, None, SomethingWrong, None, None)
  {
    var run := CaptureLeadInShopify(b, LeadFor(input, nowIso), nowIso);
    match run.outcome
    case Threw => LeadToolRun(run, LeadReply(false, None, SomethingWrong, None, None))
    case Returned(LeadFailed(e)) => LeadToolRun(run, LeadReply(false, None, SaveFailed, Some(e), None))
    case Returned(LeadSaved(isNew)) =>
      LeadToolRun(run, LeadReply(true, Some(isNew), Saved(input.source, input.interest, input.email),
        None, Some(LeadDetails(input.email, OrElse(input.firstName, "Not provided"), input.interest,
          input.source, input.marketingConsent))))
  }

  /** A lead is reported new exactly when the store had no customer with
      that email and created one. */
  lemma NewLeadIffNoCustomer(b: Backend, input: LeadInput, nowIso: string)
    requires Execute(b, input, nowIso).reply.success
    ensures Execute(b, input, nowIso).reply.isNewLead == Some(b.customerIdByEmail(input.email) == Returned(None))
  {
    LeadSavedIsNewIffCreated(b, LeadFor(input, nowIso), nowIso);
  }
}
