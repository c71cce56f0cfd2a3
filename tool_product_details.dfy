/** The product-details tool (`lib/ai/tools/get-product-details.ts`): look a
    product up by title in the store, and reply with its summary, its
    specifications read from metafields, and its real variants. */
module ProductDetailsTool {
  import opened Base
  import opened Strings
  import opened Seqs
  import opened Gateway

  // ---------------------------------------------------------------------
  // The queried title
  // ---------------------------------------------------------------------

  predicate IsQuote(c: char) { c == '\'' || c == '"' }

  predicate NoQuotes(s: string) {
    forall i :: 0 <= i < |s| ==> !IsQuote(s[i])
  }

  /** `replace(/['"]/g, "")`. */
  function StripQuotes(s: string): (r: string)
    ensures NoQuotes(r)
    ensures |r| <= |s|
    decreases |s|
  {
    if s == [] then []
    else (if IsQuote(s[0]) then [] else [s[0]]) + StripQuotes(s[1..])
  }

  /** A quote is deleted, not replaced, and any other character is kept. */
  lemma StripQuotesChar(c: char)
    ensures StripQuotes([c]) == if IsQuote(c) then [] else [c]
  {
    assert [c][1..] == [];
  }

  /** A title without quotes is queried as it is. */
  lemma {:induction false} StripQuotesKeepsPlain(s: string)
    requires NoQuotes(s)
    ensures StripQuotes(s) == s
    decreases |s|
  {
    if s != [] {
      assert NoQuotes(s[1..]) by {
        forall i | 0 <= i < |s[1..]| ensures !IsQuote(s[1..][i]) {
          assert s[1..][i] == s[i + 1];
        }
      }
      StripQuotesKeepsPlain(s[1..]);
      assert s == [s[0]] + s[1..];
    }
  }

  /** Removing quotes works piece by piece: it keeps every other character,
      in order. */
  lemma {:induction false} StripQuotesAppend(a: string, b: string)
    ensures StripQuotes(a + b) == StripQuotes(a) + StripQuotes(b)
    decreases |a|
  {
    if a == [] {
      assert a + b == b;
    } else {
      var head := if IsQuote(a[0]) then [] else [a[0]];
      assert (a + b)[0] == a[0];
      assert (a + b)[1..] == a[1..] + b;
      StripQuotesAppend(a[1..], b);
    }
  }

  // ---------------------------------------------------------------------
  // Metafield keys
  // ---------------------------------------------------------------------

  predicate IsSeparator(c: char) { c == '-' || c == '_' }

  /** `replace(/[-_]/g, " ")`. */
  function SeparatorsToSpaces(k: string): (r: string)
    ensures |r| == |k|
    ensures forall i :: 0 <= i < |k| ==> r[i] == if IsSeparator(k[i]) then ' ' else k[i]
  {
    seq(|k|, i requires 0 <= i < |k| => if IsSeparator(k[i]) then ' ' else k[i])
  }

  /** Position `i` matches `\b\w`: a word character not preceded by one. */
  predicate WordStart(s: string, i: nat)
    requires i < |s|
  {
    IsWordChar(s[i]) && (i == 0 || !IsWordChar(s[i - 1]))
  }

  /** `replace(/\b\w/g, c => c.toUpperCase())`, scanning left to right with
      whether the previous character was a word character. */
  function CapitalizeWords(s: string, afterWord: bool): (r: string)
    ensures |r| == |s|
    decreases |s|
  {
    if s == [] then []
    else [if IsWordChar(s[0]) && !afterWord then UpperChar(s[0]) else s[0]] + CapitalizeWords(s[1..], IsWordChar(s[0]))
  }

  /** The character the scan leaves at position `i`. */
  lemma {:induction false} CapitalizeWordsAt(s: string, afterWord: bool, i: nat)
    requires i < |s|
    ensures CapitalizeWords(s, afterWord)[i]
      == if IsWordChar(s[i]) && (if i == 0 then !afterWord else !IsWordChar(s[i - 1])) then UpperChar(s[i]) else s[i]
    decreases i
  {
    if i > 0 {
      CapitalizeWordsAt(s[1..], IsWordChar(s[0]), i - 1);
      if i > 1 {
        assert s[1..][i - 2] == s[i - 1];
      }
    }
  }

  /** From the start of a key, the scan uppercases exactly the positions
      matching `\b\w`. */
  lemma CapitalizeWordsMatches(s: string)
    ensures forall i :: 0 <= i < |s| ==>
      CapitalizeWords(s, false)[i] == if WordStart(s, i) then UpperChar(s[i]) else s[i]
  {
    forall i | 0 <= i < |s|
      ensures CapitalizeWords(s, false)[i] == if WordStart(s, i) then UpperChar(s[i]) else s[i]
    {
      CapitalizeWordsAt(s, false, i);
    }
  }

  /** `formatMetafieldKey`: separators become spaces, and exactly the
      word-initial characters are uppercased. */
  function FormatMetafieldKey(key: string): (r: string)
    ensures |r| == |key|
    ensures forall i :: 0 <= i < |r| ==> !IsSeparator(r[i])
    ensures var t := SeparatorsToSpaces(key);
      forall i :: 0 <= i < |r| ==> r[i] == if WordStart(t, i) then UpperChar(t[i]) else t[i]
  {
    CapitalizeWordsMatches(SeparatorsToSpaces(key));
    CapitalizeWords(SeparatorsToSpaces(key), false)
  }

  /** Formatting a formatted key changes nothing. */
  lemma FormatMetafieldKeyIdempotent(key: string)
    ensures FormatMetafieldKey(FormatMetafieldKey(key)) == FormatMetafieldKey(key)
  {
    var f := FormatMetafieldKey(key);
    var t := SeparatorsToSpaces(key);
    assert SeparatorsToSpaces(f) == f;
    forall i | 0 <= i < |f|
      ensures IsWordChar(f[i]) <==> IsWordChar(t[i])
    {
    }
    forall i | 0 <= i < |f|
      ensures FormatMetafieldKey(f)[i] == f[i]
    {
      if WordStart(f, i) {
        assert WordStart(t, i);
      }
    }
  }

  // ---------------------------------------------------------------------
  // Metafield values
  // ---------------------------------------------------------------------

  datatype Metafield = Metafield(namespace: string, key: string, value: string, fieldType: string)

  /** A specification value: a string or a list of strings. */
  datatype SpecValue = TextValue(text: string) | ListValue(items: seq<string>)

  /** How a metafield type is read. */
  datatype FieldKind = ListKind | PlainKind | BooleanKind | JsonKind | OtherKind

  function KindOf(fieldType: string): (k: FieldKind)
    ensures k == BooleanKind <==> fieldType == "boolean"
    ensures k == ListKind <==> fieldType == "list.single_line_text_field" || fieldType == "list.metaobject_reference"
  {
    if fieldType == "list.single_line_text_field" || fieldType == "list.metaobject_reference" then ListKind
    else if fieldType == "single_line_text_field" || fieldType == "number_integer" || fieldType == "number_decimal" then PlainKind
    else if fieldType == "boolean" then BooleanKind
    else if fieldType == "json" then JsonKind
    else OtherKind
  }

  /** The parsed value. For list and JSON types `decoded` is what the JSON
      branch makes of the value, `None` when `JSON.parse` throws, in which
      case the raw value is kept. */
  function ParsedValue(m: Metafield, decoded: Option<SpecValue>): (v: SpecValue)
    ensures KindOf(m.fieldType) == BooleanKind ==> v == TextValue(if m.value == "true" then "Yes" else "No")
    ensures KindOf(m.fieldType) in {PlainKind, OtherKind} ==> v == TextValue(m.value)
    ensures KindOf(m.fieldType) in {ListKind, JsonKind} && decoded.None? ==> v == TextValue(m.value)
  {
    match KindOf(m.fieldType)
    case ListKind => decoded.GetOr(TextValue(m.value))
    case JsonKind => decoded.GetOr(TextValue(m.value))
    case BooleanKind => TextValue(if m.value == "true" then "Yes" else "No")
    case _ => TextValue(m.value)
  }

  /** `!parsedValue || parsedValue.length === 0` for an array. */
  predicate IsEmptyValue(v: SpecValue) {
    v == TextValue("") || v == ListValue([])
  }

  /** The JSON branch of the metafield parser, outside this model. */
  type JsonDecoder = Metafield -> Option<SpecValue>

  function ValueOf(decode: JsonDecoder, m: Metafield): SpecValue {
    ParsedValue(m, decode(m))
  }

  predicate Kept(decode: JsonDecoder, m: Metafield) {
    !IsEmptyValue(ValueOf(decode, m))
  }

  function ReadableKey(m: Metafield): string { FormatMetafieldKey(m.key) }

  /** The specifications the tool reports for `edges`. */
  function Specifications(edges: seq<Metafield>, decode: JsonDecoder): map<string, SpecValue> {
    Assign(edges, m => Kept(decode, m), ReadableKey, m => ValueOf(decode, m))
  }

  /** `parseMetafields`. */
  method ParseMetafields(edges: seq<Metafield>, decode: JsonDecoder) returns (specs: map<string, SpecValue>)
    ensures specs == Specifications(edges, decode)
  {
    specs := map[];
    for i := 0 to |edges|
      invariant specs == Specifications(edges[..i], decode)
    {
      var m := edges[i];
      var readableKey := FormatMetafieldKey(m.key);
      var parsedValue := ParsedValue(m, decode(m));
      AssignSnoc(edges[..i], m, m => Kept(decode, m), ReadableKey, m => ValueOf(decode, m));
      assert edges[..i + 1] == edges[..i] + [m];
      if !IsEmptyValue(parsedValue) {
        specs := specs[readableKey := parsedValue];
      }
    }
    assert edges[..|edges|] == edges;
  }

  /** A key is reported exactly when some metafield with a non-empty value
      formats to it. */
  lemma SpecificationKeys(edges: seq<Metafield>, decode: JsonDecoder, k: string)
    ensures k in Specifications(edges, decode) <==>
      exists i :: 0 <= i < |edges| && Kept(decode, edges[i]) && ReadableKey(edges[i]) == k
  {
    AssignKeys(edges, m => Kept(decode, m), ReadableKey, m => ValueOf(decode, m), k);
  }

  /** A later metafield with the same readable key overwrites an earlier one,
      unless its value is empty and so skipped. */
  lemma LaterDuplicateOverwrites(edges: seq<Metafield>, decode: JsonDecoder, i: nat)
    requires i < |edges| && Kept(decode, edges[i])
    requires forall j :: i < j < |edges| && Kept(decode, edges[j]) ==> ReadableKey(edges[j]) != ReadableKey(edges[i])
    ensures ReadableKey(edges[i]) in Specifications(edges, decode)
    ensures Specifications(edges, decode)[ReadableKey(edges[i])] == ValueOf(decode, edges[i])
  {
    AssignLast(edges, m => Kept(decode, m), ReadableKey, m => ValueOf(decode, m), i);
  }

  /** A boolean metafield is always reported, as "Yes" exactly when its value
      is "true". */
  lemma BooleanFieldsReported(edges: seq<Metafield>, decode: JsonDecoder, i: nat)
    requires i < |edges| && edges[i].fieldType == "boolean"
    requires forall j :: i < j < |edges| && Kept(decode, edges[j]) ==> ReadableKey(edges[j]) != ReadableKey(edges[i])
    ensures ReadableKey(edges[i]) in Specifications(edges, decode)
    ensures Specifications(edges, decode)[ReadableKey(edges[i])] == TextValue(if edges[i].value == "true" then "Yes" else "No")
  {
    var v := ValueOf(decode, edges[i]);
    assert v.text == "Yes" || v.text == "No";
    assert v.text != "";
    LaterDuplicateOverwrites(edges, decode, i);
  }

  // ---------------------------------------------------------------------
  // Variants and options
  // ---------------------------------------------------------------------

  datatype ProductOption = ProductOption(name: string, values: seq<string>)

  predicate IsRealOption(o: ProductOption) { o.name != "Title" }

  function OptionName(o: ProductOption): string { o.name }

  function OptionValues(o: ProductOption): seq<string> { o.values }

  /** The options the tool reports: every option but "Title", by name. */
  function OptionsMap(options: seq<ProductOption>): map<string, seq<string>> {
    Assign(options, IsRealOption, OptionName, OptionValues)
  }

  /** The loop filling `variantOptions`. */
  method VariantOptions(options: seq<ProductOption>) returns (r: map<string, seq<string>>)
    ensures r == OptionsMap(options)
  {
    r := map[];
    for i := 0 to |options|
      invariant r == OptionsMap(options[..i])
    {
      var option := options[i];
      AssignSnoc(options[..i], option, IsRealOption, OptionName, OptionValues);
      assert options[..i + 1] == options[..i] + [option];
      if option.name != "Title" {
        r := r[option.name := option.values];
      }
    }
    assert options[..|options|] == options;
  }

  /** "Title" is never reported; any other option is, with the values of the
      last option of that name. */
  lemma OptionsReported(options: seq<ProductOption>, i: nat)
    requires i < |options|
    requires forall j :: i < j < |options| ==> options[j].name != options[i].name
    ensures "Title" !in OptionsMap(options)
    ensures options[i].name != "Title" ==>
      options[i].name in OptionsMap(options) && OptionsMap(options)[options[i].name] == options[i].values
  {
    AssignKeys(options, IsRealOption, OptionName, OptionValues, "Title");
    if options[i].name != "Title" {
      AssignLast(options, IsRealOption, OptionName, OptionValues, i);
    }
  }

  predicate IsRealVariant(v: Variant) { v.title != "Default Title" }

  /** `variants.some(v => v.title !== "Default Title")`. */
  predicate HasRealVariants(variants: seq<Variant>) {
    exists i :: 0 <= i < |variants| && IsRealVariant(variants[i])
  }

  /** Price strings: `parseFloat(amount).toFixed(2)` is outside this model. */
  type PriceFormat = string -> string

  function Dollars(fixed2: PriceFormat, amount: string): string { "$" + fixed2(amount) }

  datatype VariantLine = VariantLine(name: string, price: string, inStock: bool, stockCount: int)

  function LineOf(fixed2: PriceFormat, v: Variant): VariantLine {
    VariantLine(v.title, Dollars(fixed2, v.price), v.availableForSale, v.inventoryQuantity)
  }

  /** The listed variants: the real ones, in order. */
  function VariantLines(fixed2: PriceFormat, variants: seq<Variant>): seq<VariantLine> {
    Map(v => LineOf(fixed2, v), Filter(IsRealVariant, variants))
  }

  /** No "Default Title" variant is listed, and every listed line is one of
      the variants. */
  lemma VariantLinesAreReal(fixed2: PriceFormat, variants: seq<Variant>)
    ensures var r := VariantLines(fixed2, variants);
      forall k :: 0 <= k < |r| ==>
        r[k].name != "Default Title" && exists j :: 0 <= j < |variants| && r[k] == LineOf(fixed2, variants[j])
  {
    var kept := Filter(IsRealVariant, variants);
    var r := VariantLines(fixed2, variants);
    forall k | 0 <= k < |r|
      ensures r[k].name != "Default Title"
      ensures exists j :: 0 <= j < |variants| && r[k] == LineOf(fixed2, variants[j])
    {
      assert kept[k] in variants && IsRealVariant(kept[k]);
      var j :| 0 <= j < |variants| && variants[j] == kept[k];
      assert r[k] == LineOf(fixed2, variants[j]);
    }
  }

  /** Every real variant is listed, so the list is empty exactly when there
      is no real variant. */
  lemma VariantLinesComplete(fixed2: PriceFormat, variants: seq<Variant>)
    ensures var r := VariantLines(fixed2, variants);
      && (forall j :: 0 <= j < |variants| && IsRealVariant(variants[j]) ==> LineOf(fixed2, variants[j]) in r)
      && (r != [] <==> HasRealVariants(variants))
  {
    var kept := Filter(IsRealVariant, variants);
    var r := VariantLines(fixed2, variants);
    forall j | 0 <= j < |variants| && IsRealVariant(variants[j])
      ensures LineOf(fixed2, variants[j]) in r
    {
      var k :| 0 <= k < |kept| && kept[k] == variants[j];
      assert r[k] == LineOf(fixed2, variants[j]);
    }
    if r != [] {
      assert kept[0] in variants && IsRealVariant(kept[0]);
    }
  }

  // ---------------------------------------------------------------------
  // The tool
  // ---------------------------------------------------------------------

  /** The product node returned by the store's product query. */
  datatype DetailsProduct = DetailsProduct(
    title: string,
    description: string,
    productType: string,
    vendor: string,
    tags: seq<string>,
    minAmount: string,
    maxAmount: string,
    totalInventory: int,
    options: Option<seq<ProductOption>>,
    variants: seq<Variant>,
    image: Option<string>,
    metafields: Option<seq<Metafield>>)

  datatype PriceRange = PriceRange(min: string, max: string)

  datatype ProductSummary = ProductSummary(
    title: string,
    description: string,
    productType: string,
    vendor: string,
    tags: seq<string>,
    price: string,
    priceRange: Option<PriceRange>,
    inStock: bool,
    stockCount: int,
    image: Option<string>)

  function SummaryOf(fixed2: PriceFormat, p: DetailsProduct): (s: ProductSummary)
    ensures s.priceRange.None? <==> p.minAmount == p.maxAmount
    ensures s.priceRange.Some? ==> s.priceRange.value == PriceRange(s.price, Dollars(fixed2, p.maxAmount))
    ensures s.price == Dollars(fixed2, p.minAmount)
    ensures s.inStock <==> p.totalInventory > 0
    ensures s.title == p.title && s.stockCount == p.totalInventory && s.image == p.image
  {
    ProductSummary(p.title, p.description, p.productType, p.vendor, p.tags, Dollars(fixed2, p.minAmount),
      if p.minAmount != p.maxAmount then Some(PriceRange(Dollars(fixed2, p.minAmount), Dollars(fixed2, p.maxAmount)))
      else None,
      p.totalInventory > 0, p.totalInventory, p.image)
  }

  datatype DetailsText = CouldNotFind(title: string) | FetchFailed

  function Text(t: DetailsText): string {
    match t
    case CouldNotFind(title) => "Could not find product \"" + title + "\""
    case FetchFailed => "Error fetching product details. Please try again."
  }

  datatype DetailsReply =
    | Missing(message: DetailsText)
    | Found(
        product: ProductSummary,
        specifications: map<string, SpecValue>,
        hasVariants: bool,
        variantOptions: Option<map<string, seq<string>>>,
        variants: Option<seq<VariantLine>>)

  /** The store's product query for a title pattern, outside this model. */
  type ProductQuery = string -> Call<Option<DetailsProduct>>

  /** The tool: the title is queried without quotes; a failed request and a
      missing product are told apart; options and variants are reported only
      for a product with real variants. */
  method Execute(query: ProductQuery, decode: JsonDecoder, fixed2: PriceFormat, productTitle: string)
    returns (r: DetailsReply)
    ensures query(StripQuotes(productTitle)).Threw? ==> r == Missing(FetchFailed)
    ensures query(StripQuotes(productTitle)) == Returned(None) ==> r == Missing(CouldNotFind(productTitle))
    ensures r.Found? <==> query(StripQuotes(productTitle)).Returned? && query(StripQuotes(productTitle)).value.Some?
    ensures r.Found? ==>
      var p := query(StripQuotes(productTitle)).value.value;
      && r.product == SummaryOf(fixed2, p)
      && r.specifications == Specifications(p.metafields.GetOr([]), decode)
      && (r.hasVariants <==> HasRealVariants(p.variants))
      && r.variantOptions == (if r.hasVariants then Some(OptionsMap(p.options.GetOr([]))) else None)
      && r.variants == (if r.hasVariants then Some(VariantLines(fixed2, p.variants)) else None)
  {
    var data := query(StripQuotes(productTitle));
    if data.Threw? {
      return Missing(FetchFailed);
    }
    if data.value.None? {
      return Missing(CouldNotFind(productTitle));
    }
    var product := data.value.value;
    var specifications := ParseMetafields(product.metafields.GetOr([]), decode);
    var hasRealVariants := HasRealVariants(product.variants);
    var variantOptions := VariantOptions(product.options.GetOr([]));
    r := Found(SummaryOf(fixed2, product), specifications, hasRealVariants,
      if hasRealVariants then Some(variantOptions) else None,
      if hasRealVariants then Some(VariantLines(fixed2, product.variants)) else None);
  }
}
