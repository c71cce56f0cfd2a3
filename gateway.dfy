/** The Shopify Admin API as the tool layer sees it: the records its queries
    select, the inputs its mutations send, the replies they return, and one
    snapshot of the store as a set of total functions. A rejected request
    (transport failure, unparsable body) is `Threw`; a query whose
    `edges[0].node` is missing is `None`. */
module Gateway {
  import opened Base
  import opened Strings

  datatype Money = Money(amount: string, currencyCode: string)

  datatype SelectedOption = SelectedOption(name: string, value: string)

  /** A node of `variants(first: 10)` in a product search. */
  datatype Variant = Variant(
    id: string,
    title: string,
    price: string,
    availableForSale: bool,
    inventoryQuantity: int,
    selectedOptions: Option<seq<SelectedOption>>)

  /** A product node of a catalogue search. */
  datatype Product = Product(
    id: string,
    title: string,
    description: string,
    handle: string,
    productType: string,
    tags: seq<string>,
    vendor: string,
    minPrice: Money,
    maxPrice: Money,
    totalInventory: int,
    imageUrl: Option<string>,
    variants: seq<Variant>)

  datatype LineItem = LineItem(title: string, quantity: int)

  /** An order node; `createdAt` is the creation instant in milliseconds since
      the epoch, `fulfillmentStatus` is `displayFulfillmentStatus` ("" when
      the field is empty) and `customerEmail` is `customer.email`. */
  datatype Order = Order(
    id: string,
    name: string,
    email: Option<string>,
    customerEmail: Option<string>,
    createdAt: int,
    financialStatus: string,
    fulfillmentStatus: string,
    cancelledAt: Option<string>,
    lineItems: seq<LineItem>)

  /** The `orderCancel` reasons of the Admin API. */
  datatype CancelReason = Fraud | Inventory | Declined | Other | Customer

  /** The variables of the `orderCancel` mutation. */
  datatype CancelRequest = CancelRequest(
    orderId: string,
    notifyCustomer: bool,
    reason: CancelReason,
    refund: bool,
    restock: bool)

  /** `errors` is the top-level GraphQL error list and `userErrors` the
      mutation's own list, each given by its messages; `None` means the field
      is absent from the reply. */
  datatype MutationReply = MutationReply(errors: Option<seq<string>>, userErrors: Option<seq<string>>)

  /** `shippingAddress` in the `orderUpdate` input. */
  datatype ShippingAddressInput = ShippingAddressInput(
    address1: string,
    address2: string,
    city: string,
    provinceCode: string,
    zip: string,
    countryCode: string,
    firstName: string,
    lastName: string,
    phone: string)

  datatype AddressUpdateRequest = AddressUpdateRequest(id: string, shippingAddress: ShippingAddressInput)

  /** The `shippingAddress` selected from the updated order; the mutation does
      not select `phone`. */
  datatype MailingAddress = MailingAddress(
    address1: Option<string>,
    address2: Option<string>,
    city: Option<string>,
    province: Option<string>,
    zip: Option<string>,
    country: Option<string>,
    firstName: Option<string>,
    lastName: Option<string>)

  datatype UpdatedOrder = UpdatedOrder(name: string, shippingAddress: Option<MailingAddress>)

  datatype AddressUpdateReply = AddressUpdateReply(
    errors: Option<seq<string>>,
    userErrors: Option<seq<string>>,
    order: Option<UpdatedOrder>)

  datatype MarketingConsent = MarketingConsent(marketingState: string, marketingOptInLevel: string, consentUpdatedAt: string)

  /** The input of `customerCreate`. */
  datatype CustomerCreateRequest = CustomerCreateRequest(
    email: string,
    firstName: string,
    lastName: string,
    phone: string,
    tags: seq<string>,
    note: string,
    emailMarketingConsent: Option<MarketingConsent>)

  /** The input of `customerUpdate`; `None` is a field sent as `undefined`. */
  datatype CustomerUpdateRequest = CustomerUpdateRequest(
    id: string,
    firstName: Option<string>,
    lastName: Option<string>,
    phone: Option<string>,
    tags: seq<string>,
    note: Option<string>)

  datatype ProductOption = ProductOption(name: string, values: seq<string>)

  datatype DetailVariant = DetailVariant(title: string, price: string, availableForSale: bool, inventoryQuantity: int)

  datatype Metafield = Metafield(namespace: string, key: string, value: string, fieldType: string)

  /** The product node of the detail query (with options and metafields). */
  datatype ProductDetail = ProductDetail(
    title: string,
    description: string,
    productType: string,
    vendor: string,
    tags: seq<string>,
    minPrice: Money,
    maxPrice: Money,
    totalInventory: int,
    options: Option<seq<ProductOption>>,
    variants: seq<DetailVariant>,
    imageUrl: Option<string>,
    metafields: Option<seq<Metafield>>)

  /** One snapshot of the store. Each tool call is evaluated against a single
      snapshot, so every lookup it makes sees the same order. */
  datatype Backend = Backend(
    orderByName: string -> Call<Option<Order>>,
    cancelOrder: CancelRequest -> Call<MutationReply>,
    updateAddress: AddressUpdateRequest -> Call<AddressUpdateReply>,
    customerIdByEmail: string -> Call<Option<string>>,
    createCustomer: CustomerCreateRequest -> Call<MutationReply>,
    updateCustomer: CustomerUpdateRequest -> Call<MutationReply>,
    searchProducts: (string, nat) -> Call<seq<Product>>,
    productByTitle: string -> Call<Option<ProductDetail>>)

  /** The error a mutation reply carries: the top-level errors when the list
      is present (even when empty), else the user errors when there are any. */
  function MutationError(errors: Option<seq<string>>, userErrors: Option<seq<string>>): (r: Option<string>)
    ensures r.None? <==> errors.None? && (userErrors.None? || |userErrors.value| == 0)
    ensures errors.Some? ==> r == Some(Join(errors.value, ", "))
    ensures errors.None? && r.Some? ==> r == Some(Join(userErrors.value, ", "))
  {
    if errors.Some? then Some(Join(errors.value, ", "))
    else if userErrors.Some? && |userErrors.value| > 0 then Some(Join(userErrors.value, ", "))
    else None
  }

  /** A failed reply reports every message of the list it takes its error from. */
  lemma MutationErrorReportsAll(errors: Option<seq<string>>, userErrors: Option<seq<string>>)
    ensures var r := MutationError(errors, userErrors);
      && (errors.Some? ==> forall k :: 0 <= k < |errors.value| ==> Contains(r.value, errors.value[k]))
      && (errors.None? && userErrors.Some? ==>
            forall k :: 0 <= k < |userErrors.value| ==> Contains(r.value, userErrors.value[k]))
  {
    if errors.Some? {
      JoinContainsParts(errors.value, ", ");
    } else if userErrors.Some? {
      JoinContainsParts(userErrors.value, ", ");
    }
  }
}
