/** The catalogue search of the store library: a query is tokenized, each
    token is fetched separately, the per-token lists are flattened and
    de-duplicated by product id, every product is scored against all tokens,
    and the relevant ones are ranked by score, filtered by stock and cut to
    the limit. */
module ShopifySearch {
  import opened Base
  import opened Strings
  import opened Seqs
  import opened Gateway

  // ---------------------------------------------------------------- tokens

  const StopWords: set<string> := {
    "the", "a", "an", "and", "or", "for", "to", "in", "on",
    "do", "you", "have", "any", "some", "your", "i", "want", "looking"
  }

  /** Plurals that the suffix rules must not touch, and their singular forms. */
  const Irregulars: map<string, string> := map[
    "women" := "women", "men" := "men", "children" := "child",
    "skis" := "ski", "goggles" := "goggles"
  ]

  /** The global replacement of `'s` followed by a word boundary: the pattern
      matches when the `s` ends the string or is followed by a non-word
      character, and scanning resumes after each match. */
  function StripPossessives(s: string): (r: string)
    ensures |r| <= |s|
    ensures forall i :: 0 <= i < |r| ==> r[i] in s
    decreases |s|
  {
    if |s| >= 2 && s[0] == '\'' && s[1] == 's' && (|s| == 2 || !IsWordChar(s[2])) then
      var rest := StripPossessives(s[2..]);
      assert forall i :: 0 <= i < |rest| ==> rest[i] in s[2..];
      rest
    else if |s| == 0 then ""
    else
      var rest := StripPossessives(s[1..]);
      assert forall i :: 0 <= i < |rest| ==> rest[i] in s[1..];
      [s[0]] + rest
  }

  /** The pattern `'s\b` matches at position `i` of `s`. */
  predicate PossessiveAt(s: string, i: nat) {
    i + 2 <= |s| && s[i] == '\'' && s[i + 1] == 's' && (i + 2 == |s| || !IsWordChar(s[i + 2]))
  }

  /** A string in which the pattern never matches is left as it is. */
  lemma {:induction false} StripPossessivesKeepsPlain(s: string)
    requires forall i :: 0 <= i < |s| ==> !PossessiveAt(s, i)
    ensures StripPossessives(s) == s
    decreases |s|
  {
    if |s| > 0 {
      assert !PossessiveAt(s, 0);
      forall i | 0 <= i < |s[1..]| ensures !PossessiveAt(s[1..], i) {
        assert !PossessiveAt(s, i + 1);
      }
      StripPossessivesKeepsPlain(s[1..]);
    }
  }

  /** One step of the scan: a match at the front is dropped, otherwise the
      first character is kept. */
  lemma StripPossessivesStep(s: string)
    requires s != []
    ensures StripPossessives(s) == if PossessiveAt(s, 0) then StripPossessives(s[2..]) else [s[0]] + StripPossessives(s[1..])
  {
  }

  /** Whether the pattern matches at the front does not depend on what
      follows, when that starts with a non-word character. */
  lemma PossessiveAtFront(a: string, t: string)
    requires a != [] && (t == [] || !IsWordChar(t[0]))
    ensures PossessiveAt(a + t, 0) == PossessiveAt(a, 0)
  {
    var s := a + t;
    assert s[0] == a[0];
    if |a| == 1 && |t| > 0 {
      assert s[1] == t[0];
    } else if |a| >= 2 {
      assert s[1] == a[1];
      if |a| > 2 {
        assert s[2] == a[2];
      } else if |t| > 0 {
        assert s[2] == t[0];
      }
    }
  }

  /** A match cannot straddle a point followed by a non-word character, so
      the replacement works on each side of such a point separately. */
  lemma {:induction false} StripPossessivesAppend(a: string, t: string)
    requires t == [] || !IsWordChar(t[0])
    ensures StripPossessives(a + t) == StripPossessives(a) + StripPossessives(t)
    decreases |a|
  {
    if |a| == 0 {
      assert a + t == t;
    } else if PossessiveAt(a, 0) {
      StripPossessivesAppend(a[2..], t);
      AppendAfterMatch(a, t);
    } else {
      StripPossessivesAppend(a[1..], t);
      AppendAfterKept(a, t);
    }
  }

  /** The inductive step of `StripPossessivesAppend` when `a` starts with a match. */
  lemma AppendAfterMatch(a: string, t: string)
    requires t == [] || !IsWordChar(t[0])
    requires PossessiveAt(a, 0)
    requires StripPossessives(a[2..] + t) == StripPossessives(a[2..]) + StripPossessives(t)
    ensures StripPossessives(a + t) == StripPossessives(a) + StripPossessives(t)
  {
    PossessiveAtFront(a, t);
    StripPossessivesStep(a + t);
    StripPossessivesStep(a);
    DropAppend(a, t, 2);
  }

  lemma DropAppend(a: string, t: string, n: nat)
    requires n <= |a|
    ensures (a + t)[n..] == a[n..] + t
  {
  }

  /** The inductive step of `StripPossessivesAppend` when `a` starts with a kept character. */
  lemma AppendAfterKept(a: string, t: string)
    requires t == [] || !IsWordChar(t[0])
    requires a != [] && !PossessiveAt(a, 0)
    requires StripPossessives(a[1..] + t) == StripPossessives(a[1..]) + StripPossessives(t)
    ensures StripPossessives(a + t) == StripPossessives(a) + StripPossessives(t)
  {
    PossessiveAtFront(a, t);
    StripPossessivesStep(a + t);
    StripPossessivesStep(a);
    DropAppend(a, t, 1);
    ConsAppend(a[0], StripPossessives(a[1..]), StripPossessives(t));
  }

  lemma ConsAppend(c: char, x: string, y: string)
    ensures [c] + (x + y) == ([c] + x) + y
  {
  }

  /** A matched `'s` is deleted and nothing else around it changes. */
  lemma StripPossessivesAt(a: string, b: string)
    requires b == [] || !IsWordChar(b[0])
    ensures StripPossessives(a + "'s" + b) == StripPossessives(a) + StripPossessives(b)
  {
    var m := "'s" + b;
    assert a + "'s" + b == a + m;
    StripPossessivesAppend(a, m);
    assert m[2..] == b;
  }

  /** The replacement of every remaining apostrophe by nothing. */
  function RemoveApostrophes(s: string): (r: string)
    ensures '\'' !in r
    ensures forall i :: 0 <= i < |r| ==> r[i] in s
  {
    Filter(IsKept, s)
  }

  predicate IsKept(c: char) { c != '\'' }

  /** Removing apostrophes character by character: a string is the
      concatenation of its parts, and each character is kept unless it is an
      apostrophe. */
  lemma RemoveApostrophesAppend(a: string, b: string)
    ensures RemoveApostrophes(a + b) == RemoveApostrophes(a) + RemoveApostrophes(b)
  {
    FilterAppend(IsKept, a, b);
  }

  lemma RemoveApostrophesChar(c: char)
    ensures RemoveApostrophes([c]) == if c == '\'' then [] else [c]
  {
    assert [c][1..] == [];
  }

  lemma RemoveApostrophesKeepsPlain(s: string)
    requires '\'' !in s
    ensures RemoveApostrophes(s) == s
  {
    FilterAll(IsKept, s);
  }

  /** The words of a query before stop-word removal: lowercased, possessives
      and apostrophes removed, split on whitespace runs and trimmed. */
  function Words(searchTerm: string): seq<string> {
    Map(Trim, SplitWs(RemoveApostrophes(StripPossessives(Lower(searchTerm)))))
  }

  /** A word survives the filter when it is longer than one character and not a stop word. */
  predicate IsCandidate(w: string) {
    |w| > 1 && w !in StopWords
  }

  /** `singularize`: the irregular table first, then the suffix rules in order. */
  function Singularize(w: string): (r: string)
    ensures w in Irregulars ==> r == Irregulars[w]
    ensures w !in Irregulars && EndsWith(w, "ies") && |w| > 4 ==> r == w[..|w| - 3] + "y"
    ensures (w !in Irregulars && !(EndsWith(w, "ies") && |w| > 4) && EndsWith(w, "es") && |w| > 3
             && (EndsWith(w, "shes") || EndsWith(w, "ches") || EndsWith(w, "xes") || EndsWith(w, "ses")))
            ==> r == w[..|w| - 2]
    ensures |r| <= |w| || w in Irregulars
  {
    if w in Irregulars then Irregulars[w]
    else if EndsWith(w, "ies") && |w| > 4 then w[..|w| - 3] + "y"
    else if EndsWith(w, "es") && |w| > 3
            && (EndsWith(w, "shes") || EndsWith(w, "ches") || EndsWith(w, "xes") || EndsWith(w, "ses")) then
      w[..|w| - 2]
    else if EndsWith(w, "s") && !EndsWith(w, "ss") && |w| > 3 then w[..|w| - 1]
    else w
  }

  /** The remaining two rules: a single trailing `s` (not `ss`) is dropped
      from words longer than three characters, and every other word is kept. */
  lemma SingularizeFallback(w: string)
    requires w !in Irregulars && !(EndsWith(w, "ies") && |w| > 4)
    requires !(EndsWith(w, "es") && |w| > 3
               && (EndsWith(w, "shes") || EndsWith(w, "ches") || EndsWith(w, "xes") || EndsWith(w, "ses")))
    ensures EndsWith(w, "s") && !EndsWith(w, "ss") && |w| > 3 ==> Singularize(w) == w[..|w| - 1]
    ensures !(EndsWith(w, "s") && !EndsWith(w, "ss") && |w| > 3) ==> Singularize(w) == w
  {
  }

  /** No entry of the irregular table grows a word, so the result is never longer than the input. */
  lemma SingularizeNotLonger(w: string)
    ensures |Singularize(w)| <= |w|
  {
    if w in Irregulars {
      assert w == "women" || w == "men" || w == "children" || w == "skis" || w == "goggles";
    }
  }

  /** What every token satisfies. */
  predicate WellFormedToken(t: string) {
    |t| >= 2 && IsLower(t) && NoWhitespace(t)
  }

  lemma SingularizeWellFormed(w: string)
    requires WellFormedToken(w)
    ensures WellFormedToken(Singularize(w))
  {
    var r := Singularize(w);
    if w in Irregulars {
      assert w == "women" || w == "men" || w == "children" || w == "skis" || w == "goggles";
    } else if EndsWith(w, "ies") && |w| > 4 {
      assert r == w[..|w| - 3] + "y";
      assert forall i :: 0 <= i < |w| - 3 ==> r[i] == w[i];
    }
  }

  /** `tokenizeSearchTerm`: the singular forms of the candidate words, first occurrence kept. */
  function Tokenize(searchTerm: string): seq<string> {
    Distinct(Map(Singularize, Filter(IsCandidate, Words(searchTerm))))
  }

  lemma WordsProperties(searchTerm: string)
    ensures forall k :: 0 <= k < |Words(searchTerm)| ==> IsLower(Words(searchTerm)[k]) && NoWhitespace(Words(searchTerm)[k])
  {
    var lowered := Lower(searchTerm);
    var stripped := StripPossessives(lowered);
    CharsFromLower(lowered, stripped);
    var cleaned := RemoveApostrophes(stripped);
    CharsFromLower(stripped, cleaned);
    var fields := SplitWs(cleaned);
    forall k | 0 <= k < |fields| ensures Trim(fields[k]) == fields[k] && IsLower(fields[k]) {
      TrimOfNoWhitespace(fields[k]);
      CharsFromLower(cleaned, fields[k]);
    }
    var words := Map(Trim, fields);
    assert words == Words(searchTerm);
    forall k | 0 <= k < |words| ensures IsLower(words[k]) && NoWhitespace(words[k]) {
      assert words[k] == fields[k];
    }
  }

  /** A string made of characters of a lowercase string is lowercase. */
  lemma CharsFromLower(s: string, r: string)
    requires IsLower(s)
    requires forall i :: 0 <= i < |r| ==> r[i] in s
    ensures IsLower(r)
  {
    forall i | 0 <= i < |r| ensures !IsUpperAscii(r[i]) {
      var k :| 0 <= k < |s| && s[k] == r[i];
    }
  }

  /** Tokens are lowercase, contain no whitespace, are at least two characters long and are pairwise distinct. */
  predicate AllWellFormed(ws: seq<string>) {
    forall k :: 0 <= k < |ws| ==> WellFormedToken(ws[k])
  }

  lemma CandidatesWellFormed(searchTerm: string)
    ensures AllWellFormed(Filter(IsCandidate, Words(searchTerm)))
  {
    WordsProperties(searchTerm);
    var words := Words(searchTerm);
    var candidates := Filter(IsCandidate, words);
    forall k | 0 <= k < |candidates| ensures WellFormedToken(candidates[k]) {
      assert candidates[k] in words;
    }
  }

  lemma TokenizeWellFormed(searchTerm: string)
    ensures forall k :: 0 <= k < |Tokenize(searchTerm)| ==> WellFormedToken(Tokenize(searchTerm)[k])
    ensures NoDuplicates(Tokenize(searchTerm))
  {
    var candidates := Filter(IsCandidate, Words(searchTerm));
    CandidatesWellFormed(searchTerm);
    SingularsWellFormed(candidates);
    var singular := Map(Singularize, candidates);
    DistinctNoDuplicates(singular);
    DistinctKeepsProperty(singular, WellFormedToken);
  }

  lemma SingularsWellFormed(words: seq<string>)
    requires AllWellFormed(words)
    ensures AllWellFormed(Map(Singularize, words))
  {
    forall k | 0 <= k < |words| ensures WellFormedToken(Map(Singularize, words)[k]) {
      SingularizeWellFormed(words[k]);
    }
  }

  /** A query has no tokens exactly when every word is a stop word or a single character. */
  lemma TokenizeEmpty(searchTerm: string)
    ensures Tokenize(searchTerm) == [] <==> forall k :: 0 <= k < |Words(searchTerm)| ==> !IsCandidate(Words(searchTerm)[k])
  {
    var words := Words(searchTerm);
    var candidates := Filter(IsCandidate, words);
    DistinctByEmpty(Map(Singularize, candidates), Identity);
    if candidates != [] {
      assert candidates[0] in words;
    }
  }

  // ------------------------------------------------------------- escaping

  /** The characters `escapeShopifyQuery` protects with a backslash. */
  predicate IsQuerySpecial(c: char) {
    c == '\\' || c == ':' || c == '"' || c == '\'' || c == '(' || c == ')'
  }

  /** `escapeShopifyQuery`. */
  function Escape(s: string): (r: string)
    ensures |r| >= |s|
    ensures |r| == |s| + |Filter(IsQuerySpecial, s)|
    ensures (forall i :: 0 <= i < |s| ==> !IsQuerySpecial(s[i])) ==> r == s
    decreases |s|
  {
    if s == [] then []
    else (if IsQuerySpecial(s[0]) then ['\\', s[0]] else [s[0]]) + Escape(s[1..])
  }

  /** Each special character gets a backslash before it and every other
      character is kept. */
  lemma EscapeChar(c: char)
    ensures Escape([c]) == if IsQuerySpecial(c) then ['\\', c] else [c]
  {
    assert [c][1..] == [];
  }

  /** Escaping works character by character. */
  lemma {:induction false} EscapeAppend(a: string, b: string)
    ensures Escape(a + b) == Escape(a) + Escape(b)
    decreases |a|
  {
    if a == [] {
      assert a + b == b;
    } else {
      assert (a + b)[0] == a[0];
      assert (a + b)[1..] == a[1..] + b;
      EscapeAppend(a[1..], b);
    }
  }

  /** Drops each escaping backslash: a backslash and the character after it become that character. */
  function Unescape(s: string): string
    decreases |s|
  {
    if |s| == 0 then []
    else if s[0] == '\\' && |s| >= 2 then [s[1]] + Unescape(s[2..])
    else [s[0]] + Unescape(s[1..])
  }

  /** Removing the escaping backslashes recovers the term. */
  lemma {:induction false} UnescapeEscape(s: string)
    ensures Unescape(Escape(s)) == s
    decreases |s|
  {
    if s != [] {
      UnescapeEscape(s[1..]);
      var e := Escape(s);
      if IsQuerySpecial(s[0]) {
        assert e == ['\\', s[0]] + Escape(s[1..]);
        assert e[2..] == Escape(s[1..]);
      } else {
        assert e == [s[0]] + Escape(s[1..]);
        assert e[1..] == Escape(s[1..]);
      }
    }
  }

  // ------------------------------------------------------------- fetching

  /** One per-token query; a rejected query contributes no products. */
  function Fetched(c: Call<seq<Product>>): seq<Product> {
    match c
    case Returned(ps) => ps
    case Threw => []
  }

  /** The per-token result lists, flattened in token order; each query asks
      for three times the limit. */
  function FetchAll(b: Backend, tokens: seq<string>, limit: nat): seq<Product>
    decreases |tokens|
  {
    if tokens == [] then []
    else Fetched(b.searchProducts(Escape(tokens[0]), limit * 3)) + FetchAll(b, tokens[1..], limit)
  }

  function ProductId(p: Product): string { p.id }

  /** `deduplicateProducts`: a filter over a growing `seen` set of ids. */
  method DeduplicateProducts(products: seq<Product>) returns (unique: seq<Product>)
    ensures unique == DistinctBy(products, ProductId, {})
  {
    var seen: set<string> := {};
    unique := [];
    var i := 0;
    while i < |products|
      invariant 0 <= i <= |products|
      invariant unique + DistinctBy(products[i..], ProductId, seen) == DistinctBy(products, ProductId, {})
    {
      var product := products[i];
      assert products[i..][1..] == products[i + 1..];
      if product.id !in seen {
        unique := unique + [product];
        seen := seen + {product.id};
      }
      i := i + 1;
    }
  }

  // -------------------------------------------------------------- scoring

  /** The lowercased searchable fields of a product; tags are joined with spaces. */
  datatype SearchText = SearchText(title: string, description: string, productType: string, tags: string)

  function TextOf(p: Product): SearchText {
    SearchText(Lower(p.title), Lower(p.description), Lower(p.productType), Lower(Join(p.tags, " ")))
  }

  function AllText(f: SearchText): string {
    f.title + " " + f.description + " " + f.productType + " " + f.tags
  }

  /** A token matches a product when it occurs in the combined text. */
  predicate Matches(f: SearchText, t: string) {
    Contains(AllText(f), t)
  }

  /** Title 15, product type 10, tags 10, description 5. */
  function FieldWeight(f: SearchText, t: string): nat {
    (if Contains(f.title, t) then 15 else 0)
    + (if Contains(f.productType, t) then 10 else 0)
    + (if Contains(f.tags, t) then 10 else 0)
    + (if Contains(f.description, t) then 5 else 0)
  }

  /** The sum of the field weights of the matched tokens. */
  function Weight(f: SearchText, tokens: seq<string>): nat
    decreases |tokens|
  {
    if tokens == [] then 0
    else
      var t := tokens[|tokens| - 1];
      Weight(f, tokens[..|tokens| - 1]) + (if Matches(f, t) then FieldWeight(f, t) else 0)
  }

  /** The matched tokens, in token order. */
  function Matched(f: SearchText, tokens: seq<string>): (r: seq<string>)
    ensures |r| <= |tokens|
    ensures |r| == |tokens| <==> forall i :: 0 <= i < |tokens| ==> Matches(f, tokens[i])
    decreases |tokens|
  {
    if tokens == [] then []
    else
      var t := tokens[|tokens| - 1];
      var prefix := tokens[..|tokens| - 1];
      assert forall i :: 0 <= i < |prefix| ==> prefix[i] == tokens[i];
      Matched(f, prefix) + (if Matches(f, t) then [t] else [])
  }

  /** The relevance score of a product for a token list. */
  function Score(p: Product, tokens: seq<string>): int {
    var f := TextOf(p);
    var matched := Matched(f, tokens);
    if |tokens| > 1 && |matched| < |tokens| then 0
    else
      Weight(f, tokens)
      + (if |matched| == |tokens| && |tokens| > 1 then 30 else 0)
      + (if p.totalInventory > 0 then 2 else 0)
  }

  /** A token without spaces matches the combined text exactly when it occurs
      in one of the four fields: no match straddles a separator. */
  lemma MatchesIffSomeField(f: SearchText, t: string)
    requires ' ' !in t
    ensures Matches(f, t) <==> FieldWeight(f, t) > 0
  {
    var a2 := f.title + " " + f.description;
    var a3 := a2 + " " + f.productType;
    if Matches(f, t) {
      ContainsAcrossSpace(a3, f.tags, t);
      if Contains(a3, t) {
        ContainsAcrossSpace(a2, f.productType, t);
        if Contains(a2, t) {
          ContainsAcrossSpace(f.title, f.description, t);
        }
      }
    }
    if Contains(f.title, t) {
      ContainsAppend(f.title, " " + f.description + " " + f.productType + " " + f.tags, t);
      assert AllText(f) == f.title + (" " + f.description + " " + f.productType + " " + f.tags);
    }
    if Contains(f.description, t) {
      ContainsPrepend(f.title + " ", f.description, t);
      ContainsAppend(a2, " " + f.productType + " " + f.tags, t);
      assert AllText(f) == a2 + (" " + f.productType + " " + f.tags);
    }
    if Contains(f.productType, t) {
      ContainsPrepend(a2 + " ", f.productType, t);
      ContainsAppend(a3, " " + f.tags, t);
      assert AllText(f) == a3 + (" " + f.tags);
    }
    if Contains(f.tags, t) {
      ContainsPrepend(a3 + " ", f.tags, t);
    }
  }

  /** With space-free tokens that all match, every token contributes at least 5. */
  lemma {:induction false} WeightOfMatched(f: SearchText, tokens: seq<string>)
    requires forall i :: 0 <= i < |tokens| ==> ' ' !in tokens[i] && Matches(f, tokens[i])
    ensures Weight(f, tokens) >= 5 * |tokens|
    decreases |tokens|
  {
    if tokens != [] {
      var prefix := tokens[..|tokens| - 1];
      assert forall i :: 0 <= i < |prefix| ==> prefix[i] == tokens[i];
      WeightOfMatched(f, prefix);
      MatchesIffSomeField(f, tokens[|tokens| - 1]);
    }
  }

  /** In a multi-token query a product that misses any token scores exactly 0. */
  lemma ScoreIsConjunctive(p: Product, tokens: seq<string>, k: nat)
    requires |tokens| > 1 && k < |tokens| && !Matches(TextOf(p), tokens[k])
    ensures Score(p, tokens) == 0
  {
  }

  /** A multi-token query that all match scores the weights plus the 30-point
      bonus plus the stock bonus, hence at least 30 + 5 per token. */
  lemma ScoreAllMatched(p: Product, tokens: seq<string>)
    requires |tokens| > 1
    requires forall i :: 0 <= i < |tokens| ==> ' ' !in tokens[i] && Matches(TextOf(p), tokens[i])
    ensures Score(p, tokens) == Weight(TextOf(p), tokens) + 30 + (if p.totalInventory > 0 then 2 else 0)
    ensures Score(p, tokens) >= 30 + 5 * |tokens|
  {
    WeightOfMatched(TextOf(p), tokens);
  }

  /** A single-token query is not conjunctive: a product that does not match
      still scores the 2-point stock bonus when it has stock. */
  lemma ScoreSingleToken(p: Product, t: string)
    ensures Score(p, [t]) == (if Matches(TextOf(p), t) then FieldWeight(TextOf(p), t) else 0)
                             + (if p.totalInventory > 0 then 2 else 0)
    ensures !Matches(TextOf(p), t) && p.totalInventory > 0 ==> Score(p, [t]) == 2
  {
    assert [t][..0] == [];
    assert Weight(TextOf(p), [t]) == (if Matches(TextOf(p), t) then FieldWeight(TextOf(p), t) else 0);
    assert |Matched(TextOf(p), [t])| == (if Matches(TextOf(p), t) then 1 else 0);
  }

  /** Which products are relevant (score > 0) for well-formed tokens. */
  lemma ScorePositive(p: Product, tokens: seq<string>)
    requires forall i :: 0 <= i < |tokens| ==> WellFormedToken(tokens[i])
    ensures |tokens| > 1 ==> (Score(p, tokens) > 0 <==> forall i :: 0 <= i < |tokens| ==> Matches(TextOf(p), tokens[i]))
    ensures |tokens| == 1 ==> (Score(p, tokens) > 0 <==> Matches(TextOf(p), tokens[0]) || p.totalInventory > 0)
    ensures tokens == [] ==> (Score(p, tokens) > 0 <==> p.totalInventory > 0)
  {
    forall i | 0 <= i < |tokens| ensures ' ' !in tokens[i] {
      assert forall j :: 0 <= j < |tokens[i]| ==> tokens[i][j] != ' ';
    }
    if |tokens| > 1 && forall i :: 0 <= i < |tokens| ==> Matches(TextOf(p), tokens[i]) {
      ScoreAllMatched(p, tokens);
    }
    if |tokens| == 1 {
      assert tokens == [tokens[0]];
      ScoreSingleToken(p, tokens[0]);
      MatchesIffSomeField(TextOf(p), tokens[0]);
    }
  }

  datatype ScoredProduct = ScoredProduct(product: Product, score: int)

  /** The loop of `scoreProducts` for one product. */
  method ScoreProduct(product: Product, tokens: seq<string>) returns (sp: ScoredProduct)
    ensures sp == ScoredProduct(product, Score(product, tokens))
  {
    var score := 0;
    var titleLower := Lower(product.title);
    var descLower := Lower(product.description);
    var typeLower := Lower(product.productType);
    var tagsLower := Lower(Join(product.tags, " "));
    var allText := titleLower + " " + descLower + " " + typeLower + " " + tagsLower;
    ghost var f := TextOf(product);
    assert allText == AllText(f);
    var matchedTokens: seq<string> := [];
    for i := 0 to |tokens|
      invariant score == Weight(f, tokens[..i])
      invariant matchedTokens == Matched(f, tokens[..i])
    {
      var token := tokens[i];
      assert tokens[..i + 1][..i] == tokens[..i];
      if Contains(allText, token) {
        matchedTokens := matchedTokens + [token];
        if Contains(titleLower, token) { score := score + 15; }
        if Contains(typeLower, token) { score := score + 10; }
        if Contains(tagsLower, token) { score := score + 10; }
        if Contains(descLower, token) { score := score + 5; }
      }
    }
    assert tokens[..|tokens|] == tokens;
    if |tokens| > 1 && |matchedTokens| < |tokens| {
      return ScoredProduct(product, 0);
    }
    if |matchedTokens| == |tokens| && |tokens| > 1 {
      score := score + 30;
    }
    if product.totalInventory > 0 {
      score := score + 2;
    }
    sp := ScoredProduct(product, score);
  }

  /** `scoreProducts`: every product paired with its score, in order. */
  method ScoreProducts(products: seq<Product>, tokens: seq<string>) returns (scored: seq<ScoredProduct>)
    ensures scored == ScoreAll(products, tokens)
  {
    scored := [];
    for i := 0 to |products|
      invariant |scored| == i
      invariant forall k :: 0 <= k < i ==> scored[k] == ScoredProduct(products[k], Score(products[k], tokens))
    {
      var sp := ScoreProduct(products[i], tokens);
      scored := scored + [sp];
    }
  }

  /** Every product paired with its score, in order. */
  function ScoreAll(products: seq<Product>, tokens: seq<string>): (r: seq<ScoredProduct>)
    ensures |r| == |products|
    ensures forall i :: 0 <= i < |products| ==> r[i] == ScoredProduct(products[i], Score(products[i], tokens))
  {
    seq(|products|, i requires 0 <= i < |products| => ScoredProduct(products[i], Score(products[i], tokens)))
  }

  predicate IsRelevant(sp: ScoredProduct) { sp.score > 0 }

  function ProductOf(sp: ScoredProduct): Product { sp.product }

  predicate InStock(p: Product) { p.totalInventory > 0 }

  // -------------------------------------------------------------- ranking

  predicate SortedByScore(s: seq<ScoredProduct>) {
    forall i, j :: 0 <= i < j < |s| ==> s[i].score >= s[j].score
  }

  /** The elements of `s` with score `v`, in order. */
  function WithScore(s: seq<ScoredProduct>, v: int): seq<ScoredProduct>
    decreases |s|
  {
    if s == [] then []
    else (if s[0].score == v then [s[0]] else []) + WithScore(s[1..], v)
  }

  /** Places `x` before the first element whose score is not higher. */
  function Insert(x: ScoredProduct, s: seq<ScoredProduct>): seq<ScoredProduct>
    decreases |s|
  {
    if s == [] || x.score >= s[0].score then [x] + s
    else [s[0]] + Insert(x, s[1..])
  }

  /** The order `sort((a, b) => b.score - a.score)` produces: highest score
      first, equal scores in their original order (the sort is stable). */
  function SortByScore(s: seq<ScoredProduct>): seq<ScoredProduct>
    decreases |s|
  {
    if s == [] then [] else Insert(s[0], SortByScore(s[1..]))
  }

  /** Where `Insert` places its element. */
  function InsertionPoint(x: ScoredProduct, s: seq<ScoredProduct>): (k: nat)
    ensures k <= |s|
    decreases |s|
  {
    if s == [] || x.score >= s[0].score then 0 else 1 + InsertionPoint(x, s[1..])
  }

  /** `Insert` splices its element in at the insertion point, after every
      element with a higher score. */
  lemma {:induction false} InsertShape(x: ScoredProduct, s: seq<ScoredProduct>)
    ensures var k := InsertionPoint(x, s);
      && Insert(x, s) == s[..k] + [x] + s[k..]
      && (forall j :: 0 <= j < k ==> s[j].score > x.score)
      && (k < |s| ==> x.score >= s[k].score)
    decreases |s|
  {
    if !(s == [] || x.score >= s[0].score) {
      InsertShape(x, s[1..]);
      var k := InsertionPoint(x, s[1..]);
      assert s[..k + 1] == [s[0]] + s[1..][..k];
      assert s[k + 1..] == s[1..][k..];
    }
  }

  lemma InsertMultiset(x: ScoredProduct, s: seq<ScoredProduct>)
    ensures multiset(Insert(x, s)) == multiset(s) + multiset{x}
  {
    InsertShape(x, s);
    var k := InsertionPoint(x, s);
    assert s == s[..k] + s[k..];
  }

  /** Where each element of `s` lands after inserting `x`. */
  lemma InsertIndex(x: ScoredProduct, s: seq<ScoredProduct>)
    ensures |Insert(x, s)| == |s| + 1
    ensures forall i :: 0 <= i < InsertionPoint(x, s) ==> Insert(x, s)[i] == s[i]
    ensures Insert(x, s)[InsertionPoint(x, s)] == x
    ensures forall i :: InsertionPoint(x, s) < i <= |s| ==> Insert(x, s)[i] == s[i - 1]
  {
    InsertShape(x, s);
    var k := InsertionPoint(x, s);
    var r := Insert(x, s);
    var front := s[..k];
    var back := [x] + s[k..];
    assert r == front + back;
    forall i | 0 <= i < k ensures r[i] == s[i] {
      assert r[i] == front[i];
    }
    assert r[k] == back[0];
    forall i | k < i <= |s| ensures r[i] == s[i - 1] {
      assert r[i] == back[i - k];
    }
  }

  lemma InsertSorted(x: ScoredProduct, s: seq<ScoredProduct>)
    requires SortedByScore(s)
    ensures SortedByScore(Insert(x, s))
  {
    InsertShape(x, s);
    InsertIndex(x, s);
    var k := InsertionPoint(x, s);
    var r := Insert(x, s);
    forall i, j | 0 <= i < j < |r| ensures r[i].score >= r[j].score {
      if j < k {
        assert r[i] == s[i] && r[j] == s[j];
      } else if j == k {
        assert r[i] == s[i];
      } else if i < k {
        assert r[i] == s[i] && r[j] == s[j - 1];
      } else if i == k {
        assert r[j] == s[j - 1];
      } else {
        assert r[i] == s[i - 1] && r[j] == s[j - 1];
      }
    }
  }

  lemma {:induction false} InsertWithScore(x: ScoredProduct, s: seq<ScoredProduct>, v: int)
    ensures WithScore(Insert(x, s), v) == (if x.score == v then [x] else []) + WithScore(s, v)
    decreases |s|
  {
    var r := Insert(x, s);
    if s == [] || x.score >= s[0].score {
      assert r[0] == x && r[1..] == s;
    } else {
      InsertWithScore(x, s[1..], v);
      assert r[0] == s[0] && r[1..] == Insert(x, s[1..]);
      var head := if s[0].score == v then [s[0]] else [];
      var mine := if x.score == v then [x] else [];
      assert WithScore(r, v) == head + (mine + WithScore(s[1..], v));
      assert WithScore(s, v) == head + WithScore(s[1..], v);
      assert head == [] || mine == [];
    }
  }

  /** The ranking is sorted by score, is a permutation of its input and keeps
      the input order among equal scores. */
  lemma {:induction false} SortByScoreProperties(s: seq<ScoredProduct>)
    ensures SortedByScore(SortByScore(s))
    ensures multiset(SortByScore(s)) == multiset(s)
    ensures forall v :: WithScore(SortByScore(s), v) == WithScore(s, v)
    decreases |s|
  {
    if s != [] {
      SortByScoreProperties(s[1..]);
      var rest := SortByScore(s[1..]);
      InsertMultiset(s[0], rest);
      InsertSorted(s[0], rest);
      forall v ensures WithScore(SortByScore(s), v) == WithScore(s, v) {
        InsertWithScore(s[0], rest, v);
      }
      assert s == [s[0]] + s[1..];
    }
  }

  predicate DistinctIds(s: seq<ScoredProduct>) {
    forall i, j :: 0 <= i < j < |s| ==> s[i].product.id != s[j].product.id
  }

  function IdOfScored(sp: ScoredProduct): string { sp.product.id }

  /** Ranking keeps product ids distinct. */
  lemma {:induction false} SortByScoreKeepsIdsDistinct(s: seq<ScoredProduct>)
    requires DistinctIds(s)
    ensures DistinctIds(SortByScore(s))
    decreases |s|
  {
    if s != [] {
      assert forall k :: 0 <= k < |s[1..]| ==> s[1..][k] == s[k + 1];
      SortByScoreKeepsIdsDistinct(s[1..]);
      SortByScoreProperties(s[1..]);
      var rest := SortByScore(s[1..]);
      forall j | 0 <= j < |rest| ensures rest[j].product.id != s[0].product.id {
        assert rest[j] in multiset(s[1..]);
        var k :| 0 <= k < |s[1..]| && s[1..][k] == rest[j];
        assert s[k + 1] == rest[j];
      }
      InsertKeepsIdsDistinct(s[0], rest);
    }
  }

  lemma InsertKeepsIdsDistinct(x: ScoredProduct, s: seq<ScoredProduct>)
    requires DistinctIds(s)
    requires forall j :: 0 <= j < |s| ==> s[j].product.id != x.product.id
    ensures DistinctIds(Insert(x, s))
  {
    InsertIndex(x, s);
    var k := InsertionPoint(x, s);
    var r := Insert(x, s);
    forall i, j | 0 <= i < j < |r| ensures r[i].product.id != r[j].product.id {
      if j < k {
        assert r[i] == s[i] && r[j] == s[j];
      } else if j == k {
        assert r[i] == s[i];
      } else if i < k {
        assert r[i] == s[i] && r[j] == s[j - 1];
      } else if i == k {
        assert r[j] == s[j - 1];
      } else {
        assert r[i] == s[i - 1] && r[j] == s[j - 1];
      }
    }
  }


  // --------------------------------------------------------------- search

  /** The relevant products, highest score first. */
  function Rank(unique: seq<Product>, tokens: seq<string>): seq<Product> {
    Map(ProductOf, SortByScore(Filter(IsRelevant, ScoreAll(unique, tokens))))
  }

  function StockFilter(ranked: seq<Product>, includeOutOfStock: bool): seq<Product> {
    if includeOutOfStock then ranked else Filter(InStock, ranked)
  }

  /** `searchProducts` after the per-token fetches. */
  function Search(b: Backend, searchTerm: string, limit: nat, includeOutOfStock: bool): seq<Product> {
    var tokens := Tokenize(searchTerm);
    if tokens == [] then []
    else
      var unique := DistinctBy(FetchAll(b, tokens, limit), ProductId, {});
      Take(StockFilter(Rank(unique, tokens), includeOutOfStock), limit)
  }

  /** `searchProducts`, with `finalResults` reassigned as in the library. */
  method SearchProducts(b: Backend, searchTerm: string, limit: nat, includeOutOfStock: bool)
    returns (results: seq<Product>)
    ensures results == Search(b, searchTerm, limit, includeOutOfStock)
  {
    var tokens := Tokenize(searchTerm);
    if |tokens| == 0 {
      return [];
    }
    var allProducts := FetchAll(b, tokens, limit);
    var uniqueProducts := DeduplicateProducts(allProducts);
    var scoredProducts := ScoreProducts(uniqueProducts, tokens);
    var relevantProducts := Filter(IsRelevant, scoredProducts);
    var finalResults := Map(ProductOf, SortByScore(relevantProducts));
    assert finalResults == Rank(uniqueProducts, tokens);
    if !includeOutOfStock {
      finalResults := Filter(InStock, finalResults);
    }
    results := Take(finalResults, limit);
  }

  /** Products ranked by a token list: each one's score is at least the next one's. */
  function RanksAbove(tokens: seq<string>): (Product, Product) -> bool {
    (a: Product, b: Product) => Score(a, tokens) >= Score(b, tokens)
  }

  /** Ranking keeps product ids distinct. */
  lemma RankKeepsIdsDistinct(unique: seq<Product>, tokens: seq<string>)
    requires KeysDistinct(unique, ProductId)
    ensures KeysDistinct(Rank(unique, tokens), ProductId)
  {
    var scored := ScoreAll(unique, tokens);
    assert KeysDistinct(scored, IdOfScored) by {
      assert forall i :: 0 <= i < |scored| ==> IdOfScored(scored[i]) == ProductId(unique[i]);
    }
    var relevant := Filter(IsRelevant, scored);
    FilterKeysDistinct(IsRelevant, scored, IdOfScored);
    assert DistinctIds(relevant) by {
      assert forall i :: 0 <= i < |relevant| ==> IdOfScored(relevant[i]) == relevant[i].product.id;
    }
    var sorted := SortByScore(relevant);
    SortByScoreKeepsIdsDistinct(relevant);
    var ranked := Map(ProductOf, sorted);
    assert forall i :: 0 <= i < |ranked| ==> ProductId(ranked[i]) == sorted[i].product.id;
  }

  /** Every ranked element is a scored product of the input with its own score. */
  lemma SortedRelevantScores(unique: seq<Product>, tokens: seq<string>)
    ensures var sorted := SortByScore(Filter(IsRelevant, ScoreAll(unique, tokens)));
      && SortedByScore(sorted)
      && forall i :: 0 <= i < |sorted| ==>
           sorted[i].score == Score(sorted[i].product, tokens) && sorted[i].score > 0 && sorted[i].product in unique
  {
    var scored := ScoreAll(unique, tokens);
    var relevant := Filter(IsRelevant, scored);
    var sorted := SortByScore(relevant);
    SortByScoreProperties(relevant);
    forall i | 0 <= i < |sorted|
      ensures sorted[i].score == Score(sorted[i].product, tokens) && sorted[i].score > 0 && sorted[i].product in unique
    {
      assert sorted[i] in multiset(relevant);
      assert sorted[i] in relevant;
      var k :| 0 <= k < |scored| && scored[k] == sorted[i];
      assert sorted[i].product == unique[k];
    }
  }

  /** What the ranked list satisfies. */
  lemma RankedProperties(unique: seq<Product>, tokens: seq<string>)
    requires KeysDistinct(unique, ProductId)
    ensures var ranked := Rank(unique, tokens);
      && KeysDistinct(ranked, ProductId)
      && Pairwise(ranked, RanksAbove(tokens))
      && (forall i :: 0 <= i < |ranked| ==> ranked[i] in unique && Score(ranked[i], tokens) > 0)
  {
    RankKeepsIdsDistinct(unique, tokens);
    SortedRelevantScores(unique, tokens);
    var sorted := SortByScore(Filter(IsRelevant, ScoreAll(unique, tokens)));
    var ranked := Rank(unique, tokens);
    assert forall i :: 0 <= i < |ranked| ==> ranked[i] == sorted[i].product;
    forall i, j | 0 <= i < j < |ranked| ensures RanksAbove(tokens)(ranked[i], ranked[j]) {
      assert sorted[i].score >= sorted[j].score;
    }
  }

  /** The stock filter keeps the ranking's properties and removes every product without stock. */
  lemma ShownProperties(unique: seq<Product>, tokens: seq<string>, includeOutOfStock: bool)
    requires KeysDistinct(unique, ProductId)
    ensures var shown := StockFilter(Rank(unique, tokens), includeOutOfStock);
      && KeysDistinct(shown, ProductId)
      && Pairwise(shown, RanksAbove(tokens))
      && (forall i :: 0 <= i < |shown| ==> shown[i] in unique && Score(shown[i], tokens) > 0)
      && (!includeOutOfStock ==> forall i :: 0 <= i < |shown| ==> shown[i].totalInventory > 0)
  {
    var ranked := Rank(unique, tokens);
    RankedProperties(unique, tokens);
    if !includeOutOfStock {
      var shown := Filter(InStock, ranked);
      FilterKeysDistinct(InStock, ranked, ProductId);
      FilterPairwise(InStock, ranked, RanksAbove(tokens));
      forall i | 0 <= i < |shown| ensures shown[i] in unique && Score(shown[i], tokens) > 0 {
        assert shown[i] in ranked;
      }
    }
  }

  /** The products a token list scores exactly `v`. */
  function HasScore(tokens: seq<string>, v: int): Product -> bool {
    (p: Product) => Score(p, tokens) == v
  }

  /** The scored products of `s` carry their own scores. */
  predicate ScoredBy(s: seq<ScoredProduct>, tokens: seq<string>) {
    forall i :: 0 <= i < |s| ==> s[i].score == Score(s[i].product, tokens)
  }

  /** Keeping the relevant scored products and taking those of a positive
      score `v` is selecting the products of score `v`. */
  lemma {:induction false} RelevantWithScore(s: seq<ScoredProduct>, tokens: seq<string>, v: int)
    requires v > 0 && ScoredBy(s, tokens)
    ensures Map(ProductOf, WithScore(Filter(IsRelevant, s), v)) == Filter(HasScore(tokens, v), Map(ProductOf, s))
    decreases |s|
  {
    if s != [] {
      var x := s[0];
      var rest := s[1..];
      assert ScoredBy(rest, tokens) by {
        assert forall i :: 0 <= i < |rest| ==> rest[i] == s[i + 1];
      }
      RelevantWithScore(rest, tokens, v);
      var ps := Map(ProductOf, s);
      assert s == [x] + rest;
      MapCons(ProductOf, x, rest);
      assert ps[1..] == Map(ProductOf, rest);
      var kept := Filter(IsRelevant, rest);
      var tail := Map(ProductOf, WithScore(kept, v));
      var wanted := Filter(HasScore(tokens, v), Map(ProductOf, rest));
      assert HasScore(tokens, v)(x.product) == (x.score == v);
      if x.score == v {
        assert Filter(HasScore(tokens, v), ps) == [x.product] + wanted;
        assert Filter(IsRelevant, s) == [x] + kept;
        assert WithScore([x] + kept, v) == [x] + WithScore(kept, v);
        MapCons(ProductOf, x, WithScore(kept, v));
      } else {
        assert Filter(HasScore(tokens, v), ps) == wanted;
        if x.score > 0 {
          assert Filter(IsRelevant, s) == [x] + kept;
          assert WithScore([x] + kept, v) == WithScore(kept, v);
        } else {
          assert Filter(IsRelevant, s) == kept;
        }
      }
    }
  }

  /** Taking the products of list of scored products whose scores are their
      own is selecting the scored products of that score. */
  lemma {:induction false} ProductsWithScore(s: seq<ScoredProduct>, tokens: seq<string>, v: int)
    requires ScoredBy(s, tokens)
    ensures Filter(HasScore(tokens, v), Map(ProductOf, s)) == Map(ProductOf, WithScore(s, v))
    decreases |s|
  {
    if s != [] {
      assert ScoredBy(s[1..], tokens) by {
        assert forall i :: 0 <= i < |s[1..]| ==> s[1..][i] == s[i + 1];
      }
      ProductsWithScore(s[1..], tokens, v);
      var rest := Map(ProductOf, s[1..]);
      assert s == [s[0]] + s[1..];
      MapCons(ProductOf, s[0], s[1..]);
      FilterCons(HasScore(tokens, v), s[0].product, rest);
      assert HasScore(tokens, v)(s[0].product) == (s[0].score == v);
      if s[0].score == v {
        MapCons(ProductOf, s[0], WithScore(s[1..], v));
      }
    }
  }

  /** Ranking keeps discovery order within each positive score: the ranked
      products of score `v` are the de-duplicated products of score `v`, in
      the order they were fetched. */
  lemma RankTies(unique: seq<Product>, tokens: seq<string>, v: int)
    requires v > 0
    ensures Filter(HasScore(tokens, v), Rank(unique, tokens)) == Filter(HasScore(tokens, v), unique)
  {
    var all := ScoreAll(unique, tokens);
    var relevant := Filter(IsRelevant, all);
    var sorted := SortByScore(relevant);
    SortedRelevantScores(unique, tokens);
    ProductsWithScore(sorted, tokens, v);
    SortByScoreProperties(relevant);
    RelevantWithScore(all, tokens, v);
    assert Map(ProductOf, all) == unique;
  }

  /** The stock filter keeps that order. */
  lemma ShownTies(unique: seq<Product>, tokens: seq<string>, includeOutOfStock: bool, v: int)
    requires v > 0
    ensures Filter(HasScore(tokens, v), StockFilter(Rank(unique, tokens), includeOutOfStock))
         == Filter(HasScore(tokens, v), StockFilter(unique, includeOutOfStock))
  {
    RankTies(unique, tokens, v);
    if !includeOutOfStock {
      FilterCommutes(HasScore(tokens, v), InStock, Rank(unique, tokens));
      FilterCommutes(HasScore(tokens, v), InStock, unique);
    }
  }

  /** Every relevant product, in stock when out-of-stock products are
      excluded, reaches the list before the limit is applied. */
  lemma ShownComplete(unique: seq<Product>, tokens: seq<string>, includeOutOfStock: bool)
    ensures forall p :: p in unique && Score(p, tokens) > 0 && (includeOutOfStock || InStock(p)) ==>
              p in StockFilter(Rank(unique, tokens), includeOutOfStock)
  {
    forall p | p in unique && Score(p, tokens) > 0 && (includeOutOfStock || InStock(p))
      ensures p in StockFilter(Rank(unique, tokens), includeOutOfStock)
    {
      var v := Score(p, tokens);
      ShownTies(unique, tokens, includeOutOfStock, v);
      var k :| 0 <= k < |unique| && unique[k] == p;
      var stocked := StockFilter(unique, includeOutOfStock);
      assert p in stocked;
      var j :| 0 <= j < |stocked| && stocked[j] == p;
      assert p in Filter(HasScore(tokens, v), stocked);
    }
  }

  /** A relevant product left out of the result, in stock when out-of-stock
      products are excluded, is left out because the limit was reached by
      products scoring at least as high. */
  lemma ResultComplete(unique: seq<Product>, tokens: seq<string>, limit: nat, includeOutOfStock: bool)
    requires KeysDistinct(unique, ProductId)
    ensures var r := Take(StockFilter(Rank(unique, tokens), includeOutOfStock), limit);
      forall p :: p in unique && Score(p, tokens) > 0 && (includeOutOfStock || InStock(p)) && p !in r
        ==> |r| == limit && forall i :: 0 <= i < |r| ==> Score(r[i], tokens) >= Score(p, tokens)
  {
    var shown := StockFilter(Rank(unique, tokens), includeOutOfStock);
    var r := Take(shown, limit);
    ShownProperties(unique, tokens, includeOutOfStock);
    ShownComplete(unique, tokens, includeOutOfStock);
    forall p | p in unique && Score(p, tokens) > 0 && (includeOutOfStock || InStock(p)) && p !in r
      ensures |r| == limit && forall i :: 0 <= i < |r| ==> Score(r[i], tokens) >= Score(p, tokens)
    {
      var k :| 0 <= k < |shown| && shown[k] == p;
      assert k >= |r| by {
        assert forall i :: 0 <= i < |r| ==> r[i] == shown[i];
      }
      forall i | 0 <= i < |r| ensures Score(r[i], tokens) >= Score(p, tokens) {
        assert r[i] == shown[i];
        assert RanksAbove(tokens)(shown[i], shown[k]);
      }
    }
  }

  /** Among the products of one positive score the result holds the first
      ones fetched (in stock when out-of-stock products are excluded), in
      the order they were fetched. */
  lemma ResultTies(unique: seq<Product>, tokens: seq<string>, limit: nat, includeOutOfStock: bool)
    ensures var r := Take(StockFilter(Rank(unique, tokens), includeOutOfStock), limit);
      forall v :: v > 0 ==> Filter(HasScore(tokens, v), r) <= Filter(HasScore(tokens, v), StockFilter(unique, includeOutOfStock))
  {
    var shown := StockFilter(Rank(unique, tokens), includeOutOfStock);
    forall v | v > 0
      ensures Filter(HasScore(tokens, v), Take(shown, limit)) <= Filter(HasScore(tokens, v), StockFilter(unique, includeOutOfStock))
    {
      FilterTake(HasScore(tokens, v), shown, limit);
      ShownTies(unique, tokens, includeOutOfStock, v);
    }
  }

  /** The result of the pipeline after fetching, for any fetched list. */
  lemma ResultProperties(fetched: seq<Product>, tokens: seq<string>, limit: nat, includeOutOfStock: bool)
    ensures var unique := DistinctBy(fetched, ProductId, {});
      var r := Take(StockFilter(Rank(unique, tokens), includeOutOfStock), limit);
      && |r| <= limit
      && KeysDistinct(r, ProductId)
      && (forall i :: 0 <= i < |r| ==> FirstWithKey(fetched, ProductId, r[i].id) == Some(r[i]))
      && (forall i :: 0 <= i < |r| ==> Score(r[i], tokens) > 0)
      && (forall i, j :: 0 <= i < j < |r| ==> Score(r[i], tokens) >= Score(r[j], tokens))
      && (!includeOutOfStock ==> forall i :: 0 <= i < |r| ==> r[i].totalInventory > 0)
      && (forall p :: p in unique && Score(p, tokens) > 0 && (includeOutOfStock || InStock(p)) && p !in r
            ==> |r| == limit && forall i :: 0 <= i < |r| ==> Score(r[i], tokens) >= Score(p, tokens))
      && (forall v :: v > 0 ==> Filter(HasScore(tokens, v), r) <= Filter(HasScore(tokens, v), StockFilter(unique, includeOutOfStock)))
  {
    var unique := DistinctBy(fetched, ProductId, {});
    DistinctByKeys(fetched, ProductId, {});
    ShownProperties(unique, tokens, includeOutOfStock);
    var shown := StockFilter(Rank(unique, tokens), includeOutOfStock);
    var r := Take(shown, limit);
    assert forall i :: 0 <= i < |r| ==> r[i] == shown[i];
    ResultComplete(unique, tokens, limit, includeOutOfStock);
    ResultTies(unique, tokens, limit, includeOutOfStock);
    forall i | 0 <= i < |r| ensures FirstWithKey(fetched, ProductId, r[i].id) == Some(r[i]) {
      DistinctByFirst(fetched, ProductId, {}, r[i]);
    }
    forall i, j | 0 <= i < j < |r| ensures Score(r[i], tokens) >= Score(r[j], tokens) {
      assert RanksAbove(tokens)(shown[i], shown[j]);
    }
  }

  /** The search result holds at most `limit` products with distinct ids, each
      the first product with its id among the fetched lists, each relevant,
      ranked by non-increasing score, and in stock when out-of-stock products
      are excluded; a relevant product is left out only when the limit was
      filled by products scoring at least as high, and equal scores keep the
      order of discovery; a query without tokens returns nothing. */
  lemma SearchResult(b: Backend, searchTerm: string, limit: nat, includeOutOfStock: bool)
    ensures var r := Search(b, searchTerm, limit, includeOutOfStock);
      var tokens := Tokenize(searchTerm);
      && (tokens == [] ==> r == [])
      && |r| <= limit
      && KeysDistinct(r, ProductId)
      && (forall i :: 0 <= i < |r| ==> FirstWithKey(FetchAll(b, tokens, limit), ProductId, r[i].id) == Some(r[i]))
      && (forall i :: 0 <= i < |r| ==> Score(r[i], tokens) > 0)
      && (forall i, j :: 0 <= i < j < |r| ==> Score(r[i], tokens) >= Score(r[j], tokens))
      && (!includeOutOfStock ==> forall i :: 0 <= i < |r| ==> r[i].totalInventory > 0)
      && (tokens != [] ==>
            var unique := DistinctBy(FetchAll(b, tokens, limit), ProductId, {});
            && (forall p :: p in unique && Score(p, tokens) > 0 && (includeOutOfStock || InStock(p)) && p !in r
                  ==> |r| == limit && forall i :: 0 <= i < |r| ==> Score(r[i], tokens) >= Score(p, tokens))
            && (forall v :: v > 0 ==> Filter(HasScore(tokens, v), r) <= Filter(HasScore(tokens, v), StockFilter(unique, includeOutOfStock))))
  {
    var tokens := Tokenize(searchTerm);
    if tokens != [] {
      ResultProperties(FetchAll(b, tokens, limit), tokens, limit, includeOutOfStock);
    }
  }

  /** Within each score the ranking keeps the order in which the products were
      fetched: the products of score `v` in the ranked list are exactly the
      relevant products of score `v`, in discovery order. */
  lemma SearchTiesInDiscoveryOrder(unique: seq<Product>, tokens: seq<string>, v: int)
    ensures var relevant := Filter(IsRelevant, ScoreAll(unique, tokens));
      WithScore(SortByScore(relevant), v) == WithScore(relevant, v)
  {
    SortByScoreProperties(Filter(IsRelevant, ScoreAll(unique, tokens)));
  }
}
