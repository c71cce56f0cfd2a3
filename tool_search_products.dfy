/** The product-search tool (`lib/ai/tools/search-products.ts`): run the
    library's search for at most ten products, project each one for the
    reply, and suggest other keywords when nothing is found. */
module SearchProductsTool {
  import opened Base
  import opened Strings
  import opened Seqs
  import opened Gateway
  import opened ShopifySearch

  const ResultLimit := 10
  const DescriptionLimit := 200
  const SuggestionLimit := 5

  /** The category keywords and the related terms each one suggests. */
  const CategoryMap: map<string, seq<string>> := map[
    "women" := ["women's apparel", "ladies", "female", "women", "girls", "womens", "women's"],
    "men" := ["men's apparel", "mens", "male", "men", "boys", "men's"],
    "snowboard" := ["snowboards", "snow gear", "winter sports", "boards", "snowboarding", "snowboard"],
    "ski" := ["skis", "skiing", "ski gear"]]

  // ---------------------------------------------------------------------
  // Projection of a product
  // ---------------------------------------------------------------------

  /** The first 200 characters, `...` when that cut something, and
      "No description" for an empty description. */
  function TruncateDescription(d: string): (r: string)
    ensures r != ""
    ensures d == "" ==> r == "No description"
    ensures 0 < |d| <= DescriptionLimit ==> r == d
    ensures |d| > DescriptionLimit ==> r == d[..DescriptionLimit] + "..." && |r| == DescriptionLimit + 3
  {
    StrOr(Take(d, DescriptionLimit) + (if |d| > DescriptionLimit then "..." else ""), "No description")
  }

  datatype VariantView = VariantView(
    id: string,
    name: string,
    price: string,
    available: bool,
    stock: int,
    options: seq<SelectedOption>)

  datatype ProductView = ProductView(
    id: string,
    title: string,
    description: string,
    productType: string,
    price: Money,
    priceMin: Money,
    priceMax: Money,
    inStock: bool,
    inventory: int,
    image: Option<string>,
    handle: string,
    variants: seq<VariantView>)

  function ViewOfVariant(v: Variant): VariantView {
    VariantView(v.id, v.title, v.price, v.availableForSale, v.inventoryQuantity, v.selectedOptions.GetOr([]))
  }

  function ViewOf(p: Product): (r: ProductView)
    ensures r.id == p.id && r.handle == p.handle && r.title == p.title
    ensures r.inStock <==> p.totalInventory > 0
    ensures r.price == r.priceMin == p.minPrice && r.priceMax == p.maxPrice
    ensures |r.variants| == |p.variants|
    ensures forall i :: 0 <= i < |p.variants| ==> r.variants[i].id == p.variants[i].id
  {
    ProductView(p.id, p.title, TruncateDescription(p.description), p.productType, p.minPrice, p.minPrice,
      p.maxPrice, p.totalInventory > 0, p.totalInventory, p.imageUrl, p.handle, Map(ViewOfVariant, p.variants))
  }

  // ---------------------------------------------------------------------
  // Suggestions
  // ---------------------------------------------------------------------

  /** `categoryMap[token]`, empty for a token that is not a category. */
  function CategoryOf(token: string): seq<string> {
    if token in CategoryMap then CategoryMap[token] else []
  }

  predicate LongerThanTwo(t: string) { |t| > 2 }

  function SuggestionTokens(searchTerm: string): seq<string> {
    SplitWs(Lower(searchTerm))
  }

  /** Everything pushed before de-duplication: the longer words of a
      multi-word term, then the category entries. */
  function SuggestionCandidates(searchTerm: string): seq<string> {
    var tokens := SuggestionTokens(searchTerm);
    (if |tokens| > 1 then Filter(LongerThanTwo, tokens) else []) + Flatten(CategoryOf, tokens)
  }

  /** `generateSearchSuggestions`. */
  method GenerateSearchSuggestions(searchTerm: string) returns (r: seq<string>)
    ensures r == Take(Distinct(SuggestionCandidates(searchTerm)), SuggestionLimit)
  {
    var tokens := SplitWs(Lower(searchTerm));
    var suggestions: seq<string> := [];
    if |tokens| > 1 {
      suggestions := suggestions + Filter(LongerThanTwo, tokens);
    }
    suggestions := PushCategories(suggestions, tokens);
    assert suggestions == SuggestionCandidates(searchTerm);
    r := Take(Distinct(suggestions), SuggestionLimit);
  }

  /** The loop over the words: each category word pushes its related terms. */
  method PushCategories(pushed: seq<string>, tokens: seq<string>) returns (suggestions: seq<string>)
    ensures suggestions == pushed + Flatten(CategoryOf, tokens)
  {
    suggestions := pushed;
    for i := 0 to |tokens|
      invariant suggestions == pushed + Flatten(CategoryOf, tokens[..i])
    {
      FlattenAppend(CategoryOf, tokens, i);
      if tokens[i] in CategoryMap {
        suggestions := suggestions + CategoryMap[tokens[i]];
      }
    }
    assert tokens[..|tokens|] == tokens;
  }

  /** At most five suggestions, none repeated, each one a longer word of a
      multi-word term or an entry of a category the term names. */
  lemma SuggestionsProperties(searchTerm: string)
    ensures var r := Take(Distinct(SuggestionCandidates(searchTerm)), SuggestionLimit);
      && |r| <= SuggestionLimit
      && NoDuplicates(r)
      && forall k :: 0 <= k < |r| ==> r[k] in SuggestionCandidates(searchTerm)
  {
    var d := Distinct(SuggestionCandidates(searchTerm));
    DistinctNoDuplicates(SuggestionCandidates(searchTerm));
    var r := Take(d, SuggestionLimit);
    assert forall k :: 0 <= k < |r| ==> r[k] == d[k];
  }

  /** A single word suggests exactly its category's entries, and nothing when
      it is not a category. */
  lemma SingleWordSuggestions(searchTerm: string)
    requires NoWhitespace(searchTerm)
    ensures Lower(searchTerm) in CategoryMap ==> SuggestionCandidates(searchTerm) == CategoryMap[Lower(searchTerm)]
    ensures Lower(searchTerm) !in CategoryMap ==> SuggestionCandidates(searchTerm) == []
  {
    assert NoWhitespace(Lower(searchTerm));
    SplitWsSingle(Lower(searchTerm));
    assert SuggestionTokens(searchTerm) == [Lower(searchTerm)];
    var tokens := SuggestionTokens(searchTerm);
    assert tokens[1..] == [];
    assert Flatten(CategoryOf, tokens) == CategoryOf(tokens[0]) + Flatten(CategoryOf, tokens[1..]);
    assert CategoryOf(tokens[0]) + [] == CategoryOf(tokens[0]);
  }

  // ---------------------------------------------------------------------
  // The tool
  // ---------------------------------------------------------------------

  datatype SearchReply =
    | NoneFound(searchTerm: string, suggestions: seq<string>)
    | Found(searchTerm: string, resultCount: nat, products: seq<ProductView>)

  /** "No products found matching ..." with the term. */
  function NoneFoundText(searchTerm: string): string {
    "No products found matching \"" + searchTerm + "\". Try different keywords or browse categories."
  }

  /** The tool's reply: out-of-stock products are included unless the caller
      says otherwise, and at most ten are shown. */
  function Execute(b: Backend, searchTerm: string, includeOutOfStock: Option<bool>): (r: SearchReply)
    ensures var found := Search(b, searchTerm, ResultLimit, includeOutOfStock.GetOr(true));
      && (r.Found? <==> found != [])
      && (r.Found? ==> r == Found(searchTerm, |found|, Map(ViewOf, found)))
      && (r.NoneFound? ==> r.suggestions == Take(Distinct(SuggestionCandidates(searchTerm)), SuggestionLimit))
  {
    var products := Search(b, searchTerm, ResultLimit, includeOutOfStock.GetOr(true));
    if |products| == 0 then NoneFound(searchTerm, Take(Distinct(SuggestionCandidates(searchTerm)), SuggestionLimit))
    else Found(searchTerm, |products|, Map(ViewOf, products))
  }

  /** Shown products are at most ten, distinct, and in stock unless
      out-of-stock products were asked for; they come in the order of the
      library's ranking (`ShopifySearch.SearchResult`). */
  lemma ShownProducts(b: Backend, searchTerm: string, includeOutOfStock: Option<bool>)
    requires Execute(b, searchTerm, includeOutOfStock).Found?
    ensures var r := Execute(b, searchTerm, includeOutOfStock);
      && 0 < r.resultCount <= ResultLimit && r.resultCount == |r.products|
      && (forall i, j :: 0 <= i < j < |r.products| ==> r.products[i].id != r.products[j].id)
      && (includeOutOfStock == Some(false) ==> forall i :: 0 <= i < |r.products| ==> r.products[i].inStock)
  {
    var found := Search(b, searchTerm, ResultLimit, includeOutOfStock.GetOr(true));
    SearchResult(b, searchTerm, ResultLimit, includeOutOfStock.GetOr(true));
    ViewsOf(found);
    assert Execute(b, searchTerm, includeOutOfStock) == Found(searchTerm, |found|, Map(ViewOf, found));
  }

  /** The projection keeps the order, the identifiers and the stock rule. */
  lemma ViewsOf(found: seq<Product>)
    requires KeysDistinct(found, ProductId)
    ensures var v := Map(ViewOf, found);
      && |v| == |found|
      && (forall i, j :: 0 <= i < j < |v| ==> v[i].id != v[j].id)
      && (forall i :: 0 <= i < |v| ==> (v[i].inStock <==> found[i].totalInventory > 0))
  {
    var v := Map(ViewOf, found);
    forall i, j | 0 <= i < j < |v|
      ensures v[i].id != v[j].id
    {
      assert v[i].id == ProductId(found[i]) && v[j].id == ProductId(found[j]);
    }
  }
}
