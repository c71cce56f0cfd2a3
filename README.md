# Shopify support-agent tools, modelled in Dafny

This project models the deterministic core of a Shopify customer-support chat
agent. The agent's language model calls a small set of tools; each tool calls
into a Shopify store library. The model covers:

- **Product search** (`searchProducts` in `lib/shopify.ts`). The search term is
  tokenised: lower-cased, possessives and apostrophes removed, split on
  whitespace, stop words and one-letter words dropped, plural words
  singularised, and duplicates removed. The store is queried once per token
  with the token escaped. The combined results are deduplicated by product id
  and scored by where each token matches. A query of two or more tokens only
  keeps products that match every token. The survivors are sorted by score
  (a stable sort), optionally filtered to products in stock, and cut to the
  limit.
- **Order ownership and gated mutations**. `verifyOrderOwnership` compares
  the trimmed, lower-cased email with the order's email and with its
  customer's email. `cancelOrder` and `updateOrderShippingAddress` refuse
  orders that are missing, cancelled, shipped or (for an address) being
  prepared, and only then send a mutation. The mutation's errors are joined
  with ", ".
- **The tools**:
  - cancel an order;
  - change a shipping address;
  - verify a customer;
  - look up an order;
  - request a return (fulfilment gate, 30-day window, confirmation gate,
    next steps);
  - create a support ticket (an in-memory idempotency cache, a periodic
    sweep, random ticket ids);
  - capture a sales lead (tags, note, create-or-update of a store customer);
  - search products (projection, truncated descriptions, suggestions);
  - show a product's details (metafield specifications, variants, options).

The store is a `Gateway.Backend`: a record of total functions, one per store
query or mutation. Each returns a `Call`, either `Returned(value)` or `Threw`
for a rejected request. Order lookups return `Option<Order>`. One backend
value is one snapshot of the store, so the tool's verification lookup and the
library's own re-lookup see the same order. The clock is a parameter
(`now`, `nowIso`, `stamp`). The random source is a sequence of draws in
`[0, 1)`. A tool's reply is a record whose absent fields are `None`. Its
text messages are values of a message datatype, and each module's `Text`
function gives the wording.

Tool replies with a confirmation step report `needsConfirmation`. Mutations
are recorded in the run (`sent`, `created`, `updated`), so the gating
properties can say that nothing was sent.

The pure parts of the source are functions with lemmas. The loops are
methods proved against functions:

- `ShopifySearch.SearchProducts`, `ShopifySearch.ScoreProducts`,
  `ShopifySearch.ScoreProduct` and `ShopifySearch.DeduplicateProducts`;
- `SearchProductsTool.GenerateSearchSuggestions`;
- `ProductDetailsTool.ParseMetafields` and
  `ProductDetailsTool.VariantOptions`;
- `SupportTicketTool.GenerateTicketId`.

The idempotency cache is the class `SupportTicketTool.TicketCache`, whose
`entries` map is updated by `CreateTicket` and by `Sweep`. Its invariant
`Valid` says every stored ticket id has the `TKT-` shape, so a duplicate
reply carries a well-formed id as well.

Modules follow the source files:

| module | file |
|---|---|
| `Base`, `Strings`, `Seqs` | option types, string operations, list helpers |
| `Gateway` | records of the store's data and calls |
| `ShopifySearch`, `ShopifyOrders`, `ShopifyLeads` | the three parts of `lib/shopify.ts` |
| one module per tool | `lib/ai/tools/*.ts` |

The ticket alphabet `ABCDEFGHJKLMNPQRSTUVWXYZ23456789` contains `L`, although
the comment beside it says `L` was removed. The model follows the code
(`SupportTicketTool.AlphabetShape`).

## Model

| member | source | states |
|---|---|---|
| Gateway.MutationError | lib/shopify.ts:496-509 | no error iff there are no top-level errors and no user errors; top-level errors win and are joined with ", ", else the user errors joined with ", " |
| Gateway.MutationErrorReportsAll | lib/shopify.ts:496-509 | every reported error message appears in the joined error text |
| ShopifySearch.StripPossessives | lib/shopify.ts:181 | removing `'s` never lengthens the term and adds no character |
| ShopifySearch.StripPossessivesKeepsPlain | lib/shopify.ts:181 | a term in which `'s` followed by a word boundary never occurs is unchanged |
| ShopifySearch.StripPossessivesAppend | lib/shopify.ts:181 | a match never spans a point followed by a non-word character, so each side is rewritten separately |
| ShopifySearch.StripPossessivesAt | lib/shopify.ts:181 | a matched `'s` is deleted and the text on both sides is rewritten on its own |
| ShopifySearch.RemoveApostrophes | lib/shopify.ts:182 | no apostrophe remains and no character is added |
| ShopifySearch.RemoveApostrophesAppend | lib/shopify.ts:182 | apostrophes are removed piece by piece, in order |
| ShopifySearch.RemoveApostrophesChar | lib/shopify.ts:182 | an apostrophe is deleted and any other character kept |
| ShopifySearch.RemoveApostrophesKeepsPlain | lib/shopify.ts:182 | a term without apostrophes is unchanged |
| ShopifySearch.Singularize | lib/shopify.ts:194-223 | an irregular word maps to its table entry; otherwise `…ies` (length > 4) becomes `…y`, and `…shes/ches/xes/ses` (length > 3) drops two letters |
| ShopifySearch.SingularizeFallback | lib/shopify.ts:218-222 | past those rules, a final `s` that is not `ss` (length > 3) is dropped, and otherwise the word is unchanged |
| ShopifySearch.SingularizeNotLonger | lib/shopify.ts:194-223 | a singular is never longer than the word |
| ShopifySearch.SingularizeWellFormed | lib/shopify.ts:184-188 | singularising a lower-case token of length ≥ 2 without whitespace keeps those properties |
| ShopifySearch.WordsProperties | lib/shopify.ts:178-186 | every split word is lower case and free of whitespace |
| ShopifySearch.CandidatesWellFormed | lib/shopify.ts:184-187 | the words kept by the stop-word filter are well-formed tokens |
| ShopifySearch.SingularsWellFormed | lib/shopify.ts:188 | singularising preserves well-formed tokens |
| ShopifySearch.TokenizeWellFormed | lib/shopify.ts:172-191 | every token is lower case, has no whitespace and length ≥ 2, and no token repeats |
| ShopifySearch.TokenizeEmpty | lib/shopify.ts:184-190 | there are no tokens iff every word is a stop word or shorter than two letters |
| ShopifySearch.Escape | lib/shopify.ts:291-293 | the escaped term is longer by exactly the number of special characters `\ : " ' ( )`; a term without them is unchanged |
| ShopifySearch.EscapeChar | lib/shopify.ts:291-293 | a special character gets one backslash before it, any other character is kept |
| ShopifySearch.EscapeAppend | lib/shopify.ts:291-293 | escaping works character by character, in order |
| ShopifySearch.UnescapeEscape | lib/shopify.ts:291-293 | removing each escaping backslash recovers the term |
| ShopifySearch.DeduplicateProducts | lib/shopify.ts:295-304 | the loop over a growing `seen` set returns the first product of each id, in order |
| ShopifySearch.Matched | lib/shopify.ts:317-323 | the matched tokens are all tokens iff every token occurs in the product text |
| ShopifySearch.MatchesIffSomeField | lib/shopify.ts:315-328 | a token without spaces occurs in the joined text iff it occurs in some field, i.e. iff it earns field weight |
| ShopifySearch.WeightOfMatched | lib/shopify.ts:324-328 | every matched token earns at least 5 |
| ShopifySearch.ScoreIsConjunctive | lib/shopify.ts:332-337 | in a query of two or more tokens, a product missing one token scores exactly 0 |
| ShopifySearch.ScoreAllMatched | lib/shopify.ts:319-347 | a product matching all of two or more tokens scores the field weights + 30 + 2 if in stock, so at least 30 + 5 per token |
| ShopifySearch.ScoreSingleToken | lib/shopify.ts:319-347 | a one-token score is the token's field weights when it matches, plus 2 for stock; an unmatched product in stock scores 2 |
| ShopifySearch.ScorePositive | lib/shopify.ts:306-355 | score > 0 iff: all tokens match (several tokens); the token matches or there is stock (one token); there is stock (no tokens) |
| ShopifySearch.ScoreProduct | lib/shopify.ts:307-353 | the loop over tokens (accumulating `score`, pushing matched tokens) computes `Score` |
| ShopifySearch.ScoreProducts | lib/shopify.ts:306-355 | scores every product, in order |
| ShopifySearch.ScoreAll | lib/shopify.ts:306-355 | one scored entry per product, same position, its own score |
| ShopifySearch.InsertShape | lib/shopify.ts:159-160 | an insertion places the element after all strictly higher scores and before the rest |
| ShopifySearch.InsertMultiset | lib/shopify.ts:159-160 | an insertion adds exactly that element |
| ShopifySearch.InsertIndex | lib/shopify.ts:159-160 | the position of every element after an insertion |
| ShopifySearch.InsertSorted | lib/shopify.ts:159-160 | inserting into a list sorted by score keeps it sorted |
| ShopifySearch.InsertWithScore | lib/shopify.ts:159-160 | inserting a product behind its equal-score peers keeps the order of each score class |
| ShopifySearch.SortByScoreProperties | lib/shopify.ts:159-160 | the sort is non-increasing in score, a permutation, and stable (each score class keeps its order) |
| ShopifySearch.SortByScoreKeepsIdsDistinct | lib/shopify.ts:159-161 | sorting keeps product ids distinct |
| ShopifySearch.InsertKeepsIdsDistinct | lib/shopify.ts:159-161 | inserting a new id keeps product ids distinct |
| ShopifySearch.SearchProducts | lib/shopify.ts:129-170 | the search pipeline, with its reassigned `finalResults`, returns `Search` |
| ShopifySearch.RankKeepsIdsDistinct | lib/shopify.ts:155-161 | ranking a deduplicated list keeps ids distinct |
| ShopifySearch.SortedRelevantScores | lib/shopify.ts:155-160 | the sorted survivors are sorted, each with its own positive score, and each from the input |
| ShopifySearch.RankedProperties | lib/shopify.ts:155-161 | ranked products are distinct, come from the input, score > 0, and are ordered by score |
| ShopifySearch.ShownProperties | lib/shopify.ts:155-165 | the stock filter keeps those properties and, when out-of-stock items are excluded, leaves only products with inventory |
| ShopifySearch.ResultProperties | lib/shopify.ts:150-169 | at most `limit` products, distinct ids, each the first-seen product of its id, positive, non-increasing scores, stock respected; a relevant product left out means the limit was filled by products scoring at least as high; within each score the result holds the first-fetched products in fetch order |
| ShopifySearch.SearchResult | lib/shopify.ts:129-170 | no tokens gives []; otherwise, over the per-token lists in token order, the result has the soundness, completeness and tie-order properties of `ResultProperties` |
| ShopifySearch.SearchTiesInDiscoveryOrder | lib/shopify.ts:159-161 | products with equal score keep their discovery order |
| ShopifySearch.RelevantWithScore | lib/shopify.ts:155-156 | keeping the relevant scored products of one positive score selects the products of that score, in order |
| ShopifySearch.ProductsWithScore | lib/shopify.ts:158-161 | the products of one score in a ranked list are its scored entries of that score, in order |
| ShopifySearch.RankTies | lib/shopify.ts:155-161 | the ranked products of a positive score are the de-duplicated products of that score, in fetch order |
| ShopifySearch.ShownTies | lib/shopify.ts:163-165 | the stock filter keeps that order |
| ShopifySearch.ShownComplete | lib/shopify.ts:155-165 | every relevant product, in stock when required, is in the list before the limit |
| ShopifySearch.ResultComplete | lib/shopify.ts:155-169 | a relevant product missing from the result means `limit` products scoring at least as high were kept |
| ShopifySearch.ResultTies | lib/shopify.ts:155-169 | among products of one positive score the result keeps the first fetched ones, in fetch order |
| ShopifyOrders.Normalize | lib/shopify.ts:533 | an order name always starts with `#`, and one that already does is unchanged |
| ShopifyOrders.NormalizeIdempotent | lib/shopify.ts:533 | normalising twice is normalising once |
| ShopifyOrders.NormalizeSameLookup | lib/shopify.ts:533-537 | two order numbers are looked up under the same name iff they are equal or differ only by a leading `#` |
| ShopifyOrders.Located | lib/shopify.ts:564-565 | the order is present iff the lookup returned one |
| ShopifyOrders.CanonEmail | lib/shopify.ts:571-573 | a compared email is lower case and trimmed at both ends |
| ShopifyOrders.CanonEmailIdempotent | lib/shopify.ts:571-573 | canonicalising twice is canonicalising once |
| ShopifyOrders.VerifyOrderOwnership | lib/shopify.ts:532-586 | rejects iff the lookup rejects; verified iff the order exists and the email matches the order or customer email; a verified result carries the order, an unverified one none and a reason: not found, else mismatch |
| ShopifyOrders.OwnsOrderSameEmail | lib/shopify.ts:571-577 | emails with the same canonical form own the same orders |
| ShopifyOrders.VerifyEmailCanonical | lib/shopify.ts:571-577 | case and surrounding whitespace of the given email never change the verdict |
| ShopifyOrders.VerifyHashInsensitive | lib/shopify.ts:532-537 | verifying "#1001" and "1001" gives the same result |
| ShopifyOrders.MapCancelReason | lib/shopify.ts:520-529 | the lower-cased reason maps by precedence fraud > inventory/stock > declined > other, each case an iff |
| ShopifyOrders.MapCancelReasonCaseInsensitive | lib/shopify.ts:521 | the mapping ignores case |
| ShopifyOrders.MapCancelReasonNone | lib/shopify.ts:521-528 | no reason maps to CUSTOMER |
| ShopifyOrders.MapCancelReasonCustomerRequest | lib/shopify.ts:520-528 | "Customer request" maps to CUSTOMER |
| ShopifyOrders.KeywordFreeAppend | lib/shopify.ts:523-526 | a concatenation of keyword-free texts stays keyword-free |
| ShopifyOrders.KeywordFreeIsCustomer | lib/shopify.ts:523-528 | a reason containing no keyword maps to CUSTOMER |
| ShopifyOrders.NoKeywordIsCustomer | lib/shopify.ts:523-528 | a reason missing a letter of each keyword maps to CUSTOMER |
| ShopifyOrders.CancelRequestFor | lib/shopify.ts:467-473 | the mutation targets the order's id, notifies, refunds and restocks, with the mapped reason |
| ShopifyOrders.CancelOrder | lib/shopify.ts:402-516 | sends iff the order exists and is neither cancelled nor fulfilled; reports not found, already cancelled (checked first), fulfilled; store errors joined; success names the order |
| ShopifyOrders.CancelledOnlyIfAccepted | lib/shopify.ts:496-516 | a reported cancellation means a cancellable order and a mutation the store accepted without errors |
| ShopifyOrders.ShippingInputOf | lib/shopify.ts:686-698 | the address fields are sent as given; missing address2, phone, first and last name are sent as "" |
| ShopifyOrders.AddressRefusal | lib/shopify.ts:640-659 | no refusal iff the order can be re-addressed; cancelled, then FULFILLED (contact carrier), then IN_PROGRESS (contact support) |
| ShopifyOrders.UpdateOrderShippingAddress | lib/shopify.ts:591-751 | sends iff the order exists and is re-addressable, with the order's id; not found and refusals otherwise; store errors joined; an updated order reports its name and address, else an unexpected error |
| ShopifyLeads.DatePartOf | lib/shopify.ts:804 | the date part of `date + "T" + time` is `date` |
| ShopifyLeads.Defined | lib/shopify.ts:884-889 | an empty optional field is dropped: present iff truthy, and then the value itself |
| ShopifyLeads.CreateRequestFor | lib/shopify.ts:798-812 | a new customer: email, names and phone defaulting to "", the lead's tags followed by "chatbot-lead" and "captured-<date>", the default note, consent only when given |
| ShopifyLeads.UpdateRequestFor | lib/shopify.ts:881-890 | an update: empty optional fields left out, the lead's tags as given |
| ShopifyLeads.CaptureLeadInShopify | lib/shopify.ts:757-917 | an existing customer is updated and a new one is created, never both; each mutation's errors give a failure (joined for creation, a fixed text for update) |
| ShopifyLeads.LeadSavedIsNewIffCreated | lib/shopify.ts:769-774 | a saved lead is new iff it was created iff no customer had the email |
| ShopifyLeads.CreatedTags | lib/shopify.ts:804 | a created customer's tags are the lead's tags, "chatbot-lead", "captured-<date>" |
| CancelOrderTool.Execute | lib/ai/tools/cancel-order.ts:29-115 | a mutation is sent only for a non-empty email, a verified owner, a cancellable order and a confirmed request; success means cancelled and verified |
| CancelOrderTool.VerificationGate | lib/ai/tools/cancel-order.ts:33-50 | empty email gives the STOP error; a rejected lookup rejects; not found or mismatch gives `verified: false`; nothing is sent |
| CancelOrderTool.RepliesCarryVerified | lib/ai/tools/cancel-order.ts:41-114 | every reply but the STOP and the generic error says whether the caller was verified |
| CancelOrderTool.CancelledBeforeFulfilled | lib/ai/tools/cancel-order.ts:57-71 | a cancelled order is refused as cancelled even if fulfilled; a fulfilled one gets the whole "initiate a return instead" refusal with `verified: true`, and nothing is sent |
| CancelOrderTool.UnconfirmedAsksFirst | lib/ai/tools/cancel-order.ts:74-83 | unconfirmed: `needsConfirmation` with the order's name, nothing sent |
| CancelOrderTool.ConfirmedCancels | lib/ai/tools/cancel-order.ts:86-90 | confirmed: the cancellation is sent with the given reason or "Customer request" |
| CancelOrderTool.ConfirmedReplies | lib/ai/tools/cancel-order.ts:86-115 | confirmed: a library cancellation gives success, cancelled and the order name; a library refusal gives failure, cancelled false and the library's error; a failed call gives the generic error |
| CancelOrderTool.ConfirmedDefaultIsCustomer | lib/ai/tools/cancel-order.ts:88-90 | with no reason the store is asked for a CUSTOMER cancellation |
| CancelOrderTool.DefaultReasonIsCustomer | lib/ai/tools/cancel-order.ts:89 | the default reason is "Customer request", which maps to CUSTOMER |
| CancelOrderTool.ThrownCancelIsGeneric | lib/ai/tools/cancel-order.ts:108-114 | a rejected cancellation gives the generic error with no `verified` field |
| UpdateShippingAddressTool.AddressLines | lib/ai/tools/update-shipping-address.ts:153-163 | each candidate in turn contributes its text when non-empty and nothing otherwise, so order and multiplicity are kept; at most six lines |
| UpdateShippingAddressTool.FormatAddressShowsCityLine | lib/ai/tools/update-shipping-address.ts:160-165 | the line "city, province zip" is always shown |
| UpdateShippingAddressTool.FormatAddressOptionalLines | lib/ai/tools/update-shipping-address.ts:155-162 | the lines are the name line first exactly when both names are present, the non-empty street lines, the city line, the country, and "Phone: …" last exactly when a phone is given |
| UpdateShippingAddressTool.CandidatesWithoutNewline | lib/ai/tools/update-shipping-address.ts:154-162 | fields without newlines give lines without newlines |
| UpdateShippingAddressTool.FormatAddressSplits | lib/ai/tools/update-shipping-address.ts:153-166 | splitting the address at "\n" gives back exactly the kept lines |
| UpdateShippingAddressTool.Execute | lib/ai/tools/update-shipping-address.ts:61-149 | an update is sent only for a verified owner, a re-addressable order and a confirmed request; success means updated with the new address |
| UpdateShippingAddressTool.VerificationGate | lib/ai/tools/update-shipping-address.ts:65-75 | a rejected lookup rejects; not found or mismatch gives `verified: false`; nothing is sent |
| UpdateShippingAddressTool.ShippedBeforeCancelled | lib/ai/tools/update-shipping-address.ts:82-98 | FULFILLED is refused before cancelled is checked |
| UpdateShippingAddressTool.UnconfirmedShowsProposal | lib/ai/tools/update-shipping-address.ts:101-113 | unconfirmed: `needsConfirmation`, the formatted proposal, the status defaulting to "Unfulfilled", nothing sent |
| UpdateShippingAddressTool.PreparingRefusedByLibrary | lib/ai/tools/update-shipping-address.ts:116-140 | an IN_PROGRESS order passes the tool's gates and is refused only by the library after confirmation |
| UpdateShippingAddressTool.ConfirmedSends | lib/ai/tools/update-shipping-address.ts:116-119 | confirmed: the update is sent with the order's id and the new address |
| UpdateShippingAddressTool.ConfirmedReplies | lib/ai/tools/update-shipping-address.ts:118-148 | the library's error and suggestion pass through; an update shows the formatted new address |
| VerifyCustomerTool.FulfillmentShown | lib/ai/tools/verify-customer.ts:37 | the status, or "Unfulfilled" when it is empty |
| VerifyCustomerTool.Execute | lib/ai/tools/verify-customer.ts:22-40 | verified iff the owner matches; an unverified reply carries no order field; a verified one the name, status and fulfilment |
| VerifyCustomerTool.CanCancelIsCancellable | lib/ai/tools/verify-customer.ts:38 | `canCancel` iff not cancelled and not FULFILLED |
| VerifyCustomerTool.CanCancelAgreesWithCancelTool | lib/ai/tools/verify-customer.ts:38 | `canCancel` iff the cancel tool, confirmed, would send the cancellation |
| LookupOrderTool.Execute | lib/ai/tools/lookup-order.ts:19-63 | with an email: a failed verification gives not found and unverified, and a found reply is `verified: true` with the order's email and no message; without: not found, or found with `verified: false`, no email and the email-needed message; a found reply carries the order's name, status and fulfilment |
| LookupOrderTool.FoundWithEmailIffOwner | lib/ai/tools/lookup-order.ts:23-43 | with an email, found iff the caller owns the order iff verified |
| LookupOrderTool.FoundWithoutEmailIffExists | lib/ai/tools/lookup-order.ts:46-62 | without an email, found iff the order exists, never verified |
| LookupOrderTool.EmailOnlyToOwner | lib/ai/tools/lookup-order.ts:34-43 | the order's email is shown only to a caller who gave the owner's email |
| RequestReturnTool.DaysSince | lib/ai/tools/request-return.ts:72-74 | the whole days elapsed: `d` days ≤ elapsed time < `d + 1` days (floor) |
| RequestReturnTool.WithinWindowIff | lib/ai/tools/request-return.ts:74-76 | at most 30 days iff less than 31 days of milliseconds have passed |
| RequestReturnTool.FormatReason | lib/ai/tools/request-return.ts:144-154 | a known code is replaced by its label; anything else is returned unchanged |
| RequestReturnTool.FormatReasonInjectiveOnCodes | lib/ai/tools/request-return.ts:145-152 | distinct codes get distinct labels |
| RequestReturnTool.ItemSummaryListsEveryItem | lib/ai/tools/request-return.ts:87-89 | each item has its summary line, starting "- name: action" |
| RequestReturnTool.NextSteps | lib/ai/tools/request-return.ts:111-132 | the four fixed steps, then the refund line iff an action is "refund", then the exchange line iff an action is "exchange", the refund line before the exchange line |
| RequestReturnTool.ReturnIdReadsBack | lib/ai/tools/request-return.ts:101 | a return id is "RET-" followed by the clock reading |
| RequestReturnTool.Execute | lib/ai/tools/request-return.ts:41-140 | success needs confirmation, ownership, FULFILLED and at most 30 days; it carries the new id, items mapped in order and the next steps; a confirmation request has days remaining ≥ 0 |
| RequestReturnTool.VerificationFailureReply | lib/ai/tools/request-return.ts:44-54 | a caller who is not verified gets the reason and nothing about the order: no order number, return id, items or next steps |
| RequestReturnTool.Eligibility | lib/ai/tools/request-return.ts:62-83 | not FULFILLED is refused with a cancel suggestion before the window; beyond 30 days with a warranty suggestion |
| RequestReturnTool.InsideWindowCreates | lib/ai/tools/request-return.ts:72-118 | a confirmed return of an owned, fulfilled order within 30 days succeeds |
| RequestReturnTool.UnconfirmedSummarises | lib/ai/tools/request-return.ts:86-98 | unconfirmed: the item summary and 30 minus the days elapsed, no return id |
| SupportTicketTool.AlphabetShape | lib/ai/tools/create-support-ticket.ts:130 | 32 characters without 0, O, 1 or I; `L` is present |
| SupportTicketTool.Pick | lib/ai/tools/create-support-ticket.ts:133 | a draw in [0, 1) picks a valid alphabet index |
| SupportTicketTool.TicketIdOf | lib/ai/tools/create-support-ticket.ts:128-136 | an id has twelve characters: "TKT-" and eight alphabet characters |
| SupportTicketTool.Letters | lib/ai/tools/create-support-ticket.ts:132-134 | each draw contributes the character it picks |
| SupportTicketTool.GenerateTicketId | lib/ai/tools/create-support-ticket.ts:128-136 | the appending loop produces `TicketIdOf(draws)` |
| SupportTicketTool.EveryIdReachable | lib/ai/tools/create-support-ticket.ts:128-136 | every "TKT-" + eight alphabet characters is produced by some draws |
| SupportTicketTool.PickDrawFor | lib/ai/tools/create-support-ticket.ts:133 | every alphabet index is hit by a draw |
| SupportTicketTool.ResponseHours | lib/ai/tools/create-support-ticket.ts:138-146 | the response time reads "within h hours" |
| SupportTicketTool.MoreUrgentAnsweredSooner | lib/ai/tools/create-support-ticket.ts:139-144 | a more urgent priority promises strictly fewer hours |
| SupportTicketTool.IdempotencyKeyInjective | lib/ai/tools/create-support-ticket.ts:75 | with no `:` in email or order number, equal keys mean equal email, order number and first 30 subject characters |
| SupportTicketTool.KeyParts | lib/ai/tools/create-support-ticket.ts:75 | the key splits back at its two separators |
| SupportTicketTool.Recall | lib/ai/tools/create-support-ticket.ts:78-79 | a cached ticket is recalled iff its entry is younger than two minutes |
| SupportTicketTool.Swept | lib/ai/tools/create-support-ticket.ts:9-16 | the sweep keeps exactly the entries at most five minutes old, unchanged |
| SupportTicketTool.SweepUnobservable | lib/ai/tools/create-support-ticket.ts:9-16 | a sweep at time t never changes what a call at t minus three minutes or later recalls |
| SupportTicketTool.ReplyFor | lib/ai/tools/create-support-ticket.ts:78-124 | duplicate iff recalled; the recalled id or the new one; priority, response time and the fixed support contacts echoed |
| SupportTicketTool.CallKeepsIdsWellFormed | lib/ai/tools/create-support-ticket.ts:70-125 | with well-formed stored ids a call keeps them so, and the reply's id, new or duplicate, has the `TKT-` shape |
| SupportTicketTool.SweepKeepsIdsWellFormed | lib/ai/tools/create-support-ticket.ts:9-16 | the sweep keeps the stored ids well formed |
| SupportTicketTool.RepeatWithinWindowIsDuplicate | lib/ai/tools/create-support-ticket.ts:78-94 | a repeat within two minutes returns the first ticket as a duplicate and leaves the cache unchanged |
| SupportTicketTool.RepeatAfterWindowIsNew | lib/ai/tools/create-support-ticket.ts:97-124 | after two minutes a repeat makes a new ticket stored at the new time |
| SupportTicketTool.DuplicatesDoNotExtendWindow | lib/ai/tools/create-support-ticket.ts:78-100 | duplicates do not refresh the entry's time |
| SupportTicketTool.TicketCache.constructor | lib/ai/tools/create-support-ticket.ts:6 | the cache starts empty and valid |
| SupportTicketTool.TicketCache.CreateTicket | lib/ai/tools/create-support-ticket.ts:70-125 | the reply is `ReplyFor` and the new cache `EntriesAfter` of the old cache; every stored id and the reply's id have the `TKT-` shape |
| SupportTicketTool.TicketCache.Sweep | lib/ai/tools/create-support-ticket.ts:9-16 | the deleting loop leaves `Swept` of the old cache and keeps the stored ids well formed |
| CaptureLeadTool.ReplaceWsRuns | lib/ai/tools/capture-lead.ts:62 | the result has no whitespace and is never longer |
| CaptureLeadTool.ReplaceWsRunsIsJoin | lib/ai/tools/capture-lead.ts:62 | replacing whitespace runs by "-" is joining the whitespace-split words with "-" |
| CaptureLeadTool.ReplaceWsRunsOfNoWhitespace | lib/ai/tools/capture-lead.ts:62 | a text without whitespace is unchanged |
| CaptureLeadTool.InterestSlug | lib/ai/tools/capture-lead.ts:62 | the slug is lower case, has no whitespace, and is the prefix of the hyphenated lower-cased interest of length min(50, its length) |
| CaptureLeadTool.LowerKept | lib/ai/tools/capture-lead.ts:62 | hyphenating a lower-case text keeps it lower case |
| CaptureLeadTool.InterestSlugIdempotent | lib/ai/tools/capture-lead.ts:62 | a slug is its own slug |
| CaptureLeadTool.LeadTags | lib/ai/tools/capture-lead.ts:59-68 | "chatbot-lead", "source:…", "interest:<slug>", "captured:<date>", then "marketing-consent" iff consent was given |
| CaptureLeadTool.LeadNoteIsBody | lib/ai/tools/capture-lead.ts:70-76 | trimming the note leaves its body when the timestamp ends in a non-space |
| CaptureLeadTool.LeadFor | lib/ai/tools/capture-lead.ts:78-86 | the library gets the email, first and last name and phone as given, the tags, the note and the consent |
| CaptureLeadTool.NewCustomerFromLead | lib/ai/tools/capture-lead.ts:59-86 | a new customer gets the tool's tags plus "chatbot-lead" and "captured-<date>" again, and consent iff given |
| CaptureLeadTool.ExistingCustomerFromLead | lib/ai/tools/capture-lead.ts:59-86 | an existing customer gets exactly the tool's tags |
| CaptureLeadTool.Execute | lib/ai/tools/capture-lead.ts:55-131 | success iff the lead was saved, with `isNewLead`, the message for the source and the details (name defaulting to "Not provided"); a failure carries the library's error; a rejection gives the generic error |
| CaptureLeadTool.NewLeadIffNoCustomer | lib/ai/tools/capture-lead.ts:113-116 | a saved lead is new iff no customer had the email |
| SearchProductsTool.TruncateDescription | lib/ai/tools/search-products.ts:76-79 | empty gives "No description"; up to 200 characters are kept; longer ones become the first 200 + "..." (203 characters) |
| SearchProductsTool.ViewOf | lib/ai/tools/search-products.ts:73-97 | id, handle and title kept; `inStock` iff inventory > 0; price is the minimum; one variant view per variant |
| SearchProductsTool.GenerateSearchSuggestions | lib/ai/tools/search-products.ts:110-132 | the pushing loops give the first five distinct candidates |
| SearchProductsTool.PushCategories | lib/ai/tools/search-products.ts:125-129 | the loop appends each token's category entries, in token order |
| SearchProductsTool.SuggestionsProperties | lib/ai/tools/search-products.ts:131 | at most five suggestions, no duplicates, each a candidate |
| SearchProductsTool.SingleWordSuggestions | lib/ai/tools/search-products.ts:113-129 | a one-word term suggests exactly its category's entries, and nothing when it is not a category key |
| SearchProductsTool.Execute | lib/ai/tools/search-products.ts:52-99 | found iff the search (limit 10, out-of-stock included by default) returns products, then their views and count; otherwise the suggestions |
| SearchProductsTool.ShownProducts | lib/ai/tools/search-products.ts:57-86 | 1 to 10 products, count equals the list length, distinct ids, all in stock when out-of-stock items are excluded |
| SearchProductsTool.ViewsOf | lib/ai/tools/search-products.ts:73-86 | the views keep distinct ids and their stock flags |
| ProductDetailsTool.StripQuotes | lib/ai/tools/get-product-details.ts:22 | no quote remains and nothing is added |
| ProductDetailsTool.StripQuotesChar | lib/ai/tools/get-product-details.ts:22 | a quote is deleted, not replaced; any other character is kept |
| ProductDetailsTool.StripQuotesKeepsPlain | lib/ai/tools/get-product-details.ts:22 | a title without quotes is unchanged |
| ProductDetailsTool.StripQuotesAppend | lib/ai/tools/get-product-details.ts:22 | removal works piece by piece |
| ProductDetailsTool.SeparatorsToSpaces | lib/ai/tools/get-product-details.ts:204 | each `-` and `_` becomes a space, every other character stays |
| ProductDetailsTool.CapitalizeWordsAt | lib/ai/tools/get-product-details.ts:205 | a character is upper-cased iff it is a word character after a non-word character or the start |
| ProductDetailsTool.CapitalizeWordsMatches | lib/ai/tools/get-product-details.ts:205 | exactly the word-initial characters are upper-cased |
| ProductDetailsTool.FormatMetafieldKey | lib/ai/tools/get-product-details.ts:201-206 | same length, no `-` or `_`, word-initial characters upper-cased and the rest unchanged |
| ProductDetailsTool.FormatMetafieldKeyIdempotent | lib/ai/tools/get-product-details.ts:201-206 | formatting a formatted key changes nothing |
| ProductDetailsTool.KindOf | lib/ai/tools/get-product-details.ts:171-185 | boolean iff the type is "boolean"; list iff one of the two list types |
| ProductDetailsTool.ParsedValue | lib/ai/tools/get-product-details.ts:170-188 | boolean gives "Yes" iff "true", else "No"; plain and other types keep the value; a failed JSON parse keeps the value |
| ProductDetailsTool.ParseMetafields | lib/ai/tools/get-product-details.ts:156-199 | the filling loop produces `Specifications` |
| ProductDetailsTool.SpecificationKeys | lib/ai/tools/get-product-details.ts:190-195 | a key is reported iff some metafield with that readable key has a non-empty value |
| ProductDetailsTool.LaterDuplicateOverwrites | lib/ai/tools/get-product-details.ts:195 | the last kept metafield of a key gives its value |
| ProductDetailsTool.BooleanFieldsReported | lib/ai/tools/get-product-details.ts:177-195 | a boolean field is always reported, as "Yes" or "No" |
| ProductDetailsTool.VariantOptions | lib/ai/tools/get-product-details.ts:102-107 | the filling loop produces `OptionsMap` |
| ProductDetailsTool.OptionsReported | lib/ai/tools/get-product-details.ts:102-107 | "Title" is never an option; the last option of each other name gives its values |
| ProductDetailsTool.VariantLinesAreReal | lib/ai/tools/get-product-details.ts:135-143 | a listed variant is never "Default Title" and comes from the product |
| ProductDetailsTool.VariantLinesComplete | lib/ai/tools/get-product-details.ts:96-143 | every real variant is listed, and the list is non-empty iff there is a real variant |
| ProductDetailsTool.SummaryOf | lib/ai/tools/get-product-details.ts:111-128 | no price range iff min and max amounts are equal; price from the minimum; `inStock` iff inventory > 0 |
| ProductDetailsTool.Execute | lib/ai/tools/get-product-details.ts:15-153 | the quote-free title is queried; not found names the original title; a rejection gives the fetch error; found carries the summary, the specifications, and options and variants iff there are real variants |

## Definitions

Definitions that only compute, with the members whose contracts state their properties.

| definition | source | properties stated by |
|---|---|---|
| ShopifySearch.Tokenize | lib/shopify.ts:172-192 | ShopifySearch.TokenizeWellFormed, ShopifySearch.TokenizeEmpty |
| ShopifySearch.FetchAll | lib/shopify.ts:143-149 | ShopifySearch.SearchResult, ShopifySearch.SearchProducts |
| ShopifySearch.SortByScore | lib/shopify.ts:158-160 | ShopifySearch.SortByScoreProperties, ShopifySearch.SortByScoreKeepsIdsDistinct |
| ShopifySearch.Rank | lib/shopify.ts:154-161 | ShopifySearch.RankedProperties, ShopifySearch.RankTies |
| ShopifySearch.StockFilter | lib/shopify.ts:163-165 | ShopifySearch.ShownProperties, ShopifySearch.ShownTies, ShopifySearch.ShownComplete |
| ShopifySearch.Search | lib/shopify.ts:129-170 | ShopifySearch.SearchProducts, ShopifySearch.SearchResult |
| ShopifyOrders.FindOrder | lib/shopify.ts:20-21 | ShopifyOrders.Located, ShopifyOrders.VerifyHashInsensitive |
| ShopifyOrders.OwnsOrder | lib/shopify.ts:571-577 | ShopifyOrders.VerifyOrderOwnership, ShopifyOrders.OwnsOrderSameEmail |
| ShopifyOrders.Readdressable | lib/shopify.ts:640-658 | ShopifyOrders.UpdateOrderShippingAddress, ShopifyOrders.AddressRefusal |
| ShopifyLeads.DatePart | lib/shopify.ts:804 | ShopifyLeads.DatePartOf |
| SupportTicketTool.ResponseTime | lib/ai/tools/create-support-ticket.ts:138-146 | SupportTicketTool.ResponseHours, SupportTicketTool.MoreUrgentAnsweredSooner |
| SupportTicketTool.IdempotencyKey | lib/ai/tools/create-support-ticket.ts:75 | SupportTicketTool.KeyParts, SupportTicketTool.IdempotencyKeyInjective |
| SupportTicketTool.EntriesAfter | lib/ai/tools/create-support-ticket.ts:78-100 | SupportTicketTool.TicketCache.CreateTicket, SupportTicketTool.RepeatWithinWindowIsDuplicate, SupportTicketTool.RepeatAfterWindowIsNew |
| UpdateShippingAddressTool.FormatAddress | lib/ai/tools/update-shipping-address.ts:153-166 | UpdateShippingAddressTool.FormatAddressSplits, UpdateShippingAddressTool.FormatAddressOptionalLines |
| RequestReturnTool.ItemSummary | lib/ai/tools/request-return.ts:87-89 | RequestReturnTool.ItemSummaryListsEveryItem |
| RequestReturnTool.ReturnId | lib/ai/tools/request-return.ts:101 | RequestReturnTool.ReturnIdReadsBack |
| CaptureLeadTool.LeadNote | lib/ai/tools/capture-lead.ts:70-76 | CaptureLeadTool.LeadNoteIsBody |
| ProductDetailsTool.CapitalizeWords | lib/ai/tools/get-product-details.ts:205 | ProductDetailsTool.CapitalizeWordsAt, ProductDetailsTool.CapitalizeWordsMatches |
| ProductDetailsTool.VariantLines | lib/ai/tools/get-product-details.ts:135-144 | ProductDetailsTool.VariantLinesAreReal, ProductDetailsTool.VariantLinesComplete |

## Left out

- Network I/O: `shopifyAdminRequest`, every `fetch` and the GraphQL query texts are the `Gateway.Backend` functions. A rejected request is `Threw`. A failed per-token product query contributes no products.
- The `Promise.all` fan-out of the per-token queries is modelled as a sequential map in token order.
- One backend value serves every lookup within one tool call. A store that changes between the tool's verification and the library's re-lookup is not modelled.
- Clocks: `Date.now`, `new Date()` and `toISOString` are parameters. Several readings within one call are one reading: the capture-lead tags, note and library request, and the support ticket's duplicate test and stored time.
- `Math.random` is the sequence of draws in `[0, 1)`.
- The `setInterval` schedule of the sweep is left out; `TicketCache.Sweep` is called explicitly with the time.
- The input schemas are not modelled as preconditions: an email that the schema would reject is treated like any other string. Each tool handles every input.
- `getResponseTime`'s fallback for an unknown priority is unreachable, because `Priority` is a closed datatype.
- Prices: `parseFloat(...).toFixed(2)` is the `PriceFormat` parameter, because it is floating point.
- `JSON.parse` in `parseMetafields` is the `JsonDecoder` parameter. `None` stands for a thrown parse error. What the decoder returns (an array, `[value]`, a re-serialised object, a raw scalar) is not modelled. JavaScript falsy non-string results (`0`, `false`) are not modelled.
- ProductDetailsTool.Specifications and ProductDetailsTool.OptionsMap are maps, so the insertion order of JavaScript object keys is not modelled.
- The product-details store query is the `ProductQuery` parameter, which returns the first product matching the title.
- Strings are sequences of characters. Case mapping is ASCII only. JavaScript's UTF-16 lengths and slices are taken as character counts. `\s` is JavaScript's full whitespace class (`Strings.IsWhitespace`: the ASCII spaces, no-break space, U+1680, U+2000 to U+200A, the line and paragraph separators, U+202F, U+205F, U+3000 and U+FEFF); `\b` and `\w` use the ASCII word characters.
- Lookup tables (irregular plurals, reason labels, response times, lead messages, categories) are plain tables. A key that names an inherited JavaScript object property (for example "constructor") is not modelled.
- Messages are datatypes, and each module's `Text` function renders them. The "no products found" message is `SearchProductsTool.NoneFoundText`.
- The catch block of the search tool (lib/ai/tools/search-products.ts:100-107) is unreachable in the model only. In the code, `searchProducts` rejects for a term with a word naming an inherited object property (such as "constructor" or "__proto__"): `singularize` returns the inherited value of `irregulars` (lib/shopify.ts:204-205), and `escapeShopifyQuery` is then called on it at lib/shopify.ts:233, before the per-query `try` at line 280, so the rejection passes through `Promise.all` at line 148. The tool then returns its error reply. The model's tables have no inherited keys (see the line above), so that path is not modelled.
- An invalid `createdAt` (a `NaN` day count) is not modelled; creation times are integers of milliseconds.
- A null product description is not modelled; the store schema declares it non-null.
- Runtime errors from missing fields of a store reply (other than the optional ones modelled as `Option`) are not modelled.
- `console.log` and `console.error` output is left out.
- lib/ai/prompts.ts, the UI, the chat route, the authentication middleware, the OAuth and debug routes, and the lookup-customer, get-tracking and order-history tools are not part of this model.
