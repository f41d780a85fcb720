/**
 * The shop page: its own inline slug, the maximum-price fold that seeds the
 * price slider, the page state, and the sort/filter pipeline that turns the
 * fetched catalogue and the router query into the product grid.
 */
module Shop {
  import opened Wrappers
  import opened Text
  import opened Seqs
  import opened Catalog
  import ProductFilters

  /** `s.replace("&", "")` with a string pattern: deletes only the first ampersand. */
  function RemoveFirstAmpersand(s: string): (r: string)
    ensures '&' in s ==> |r| == |s| - 1
    ensures '&' !in s ==> r == s
    ensures forall c :: c in r ==> c in s
  {
    if s == [] then []
    else if s[0] == '&' then s[1..]
    else [s[0]] + RemoveFirstAmpersand(s[1..])
  }

  /**
   * The ampersand removed is the first one: the text before it and after it
   * is kept, in order. Every string holding an `&` splits this way.
   */
  lemma RemoveFirstAmpersandSplits(a: string, b: string)
    requires '&' !in a
    ensures RemoveFirstAmpersand(a + "&" + b) == a + b
  {
    var s := a + "&" + b;
    assert s[..|a|] == a && s[|a| + 1..] == b;
    RemoveFirstAt(s, |a|);
  }

  lemma {:induction false} RemoveFirstAt(s: string, k: nat)
    requires k < |s| && s[k] == '&' && '&' !in s[..k]
    ensures RemoveFirstAmpersand(s) == s[..k] + s[k + 1..]
  {
    if k == 0 {
      assert s[..0] + s[1..] == s[1..];
    } else {
      var t := s[1..];
      assert s[0] == s[..k][0] != '&';
      assert t[..k - 1] == s[1..k];
      assert '&' !in t[..k - 1];
      RemoveFirstAt(t, k - 1);
      assert t[k..] == s[k + 1..];
      assert [s[0]] + s[1..k] == s[..k];
    }
  }

  /** `split(" ").join("-")`: each single space becomes a hyphen; other whitespace stays. */
  function SpacesToHyphens(s: string): (r: string)
    ensures |r| == |s| && ' ' !in r
    ensures forall i :: 0 <= i < |s| && s[i] == ' ' ==> r[i] == '-'
    ensures forall i :: 0 <= i < |s| && s[i] != ' ' ==> r[i] == s[i]
  {
    seq(|s|, i requires 0 <= i < |s| => if s[i] == ' ' then '-' else s[i])
  }

  /**
   * The slug the pipeline computes inline for `parent`, `children`,
   * `productType` and `brand.name`:
   * `toLowerCase().replace("&", "").split(" ").join("-")`.
   */
  function InlineSlug(s: string): (r: string)
    ensures ' ' !in r
    ensures HasNoUpper(r)
    ensures |r| == |s| - (if '&' in s then 1 else 0)
  {
    var lowered := Lower(s);
    assert '&' in s <==> '&' in lowered by {
      forall i | 0 <= i < |s| ensures s[i] == '&' <==> lowered[i] == '&' { }
      if '&' in s { var i :| 0 <= i < |s| && s[i] == '&'; assert lowered[i] == '&'; }
      if '&' in lowered { var i :| 0 <= i < |s| && lowered[i] == '&'; assert s[i] == '&'; }
    }
    LowerIdempotent(s);
    var dropped := RemoveFirstAmpersand(lowered);
    var r := SpacesToHyphens(dropped);
    assert HasNoUpper(r) by {
      forall c | c in r ensures !IsUpper(c) {
        var i :| 0 <= i < |r| && r[i] == c;
        assert dropped[i] in lowered;
      }
    }
    r
  }

  /** Without an ampersand the inline slug maps character by character: lowered, each space to `-`. */
  lemma InlineSlugPerCharacter(s: string)
    requires '&' !in s
    ensures |InlineSlug(s)| == |s|
    ensures forall i :: 0 <= i < |s| ==> InlineSlug(s)[i] == if s[i] == ' ' then '-' else LowerChar(s[i])
  {
    assert '&' !in Lower(s);
  }

  /**
   * With an ampersand only the first one is dropped: the text on either side
   * is lowered and its spaces become hyphens, so a second `&` survives.
   */
  lemma InlineSlugSplits(a: string, b: string)
    requires '&' !in a
    ensures InlineSlug(a + "&" + b) == InlineSlug(a) + SpacesToHyphens(Lower(b))
    ensures '&' in b ==> '&' in InlineSlug(a + "&" + b)
  {
    var la, lb := Lower(a), Lower(b);
    assert Lower(a + "&" + b) == la + "&" + lb;
    assert '&' !in la;
    RemoveFirstAmpersandSplits(la, lb);
    assert SpacesToHyphens(la + lb) == SpacesToHyphens(la) + SpacesToHyphens(lb);
    if '&' in b {
      var k :| 0 <= k < |b| && b[k] == '&';
      assert SpacesToHyphens(lb)[k] == '&';
      assert InlineSlug(a + "&" + b)[|a| + k] == '&';
    }
  }

  /** Only plain spaces as whitespace, never two in a row. */
  predicate SingleSpaced(s: string) {
    && (forall i :: 0 <= i < |s| && IsSpace(s[i]) ==> s[i] == ' ')
    && (forall i :: 0 <= i < |s| - 1 ==> !(s[i] == ' ' && s[i + 1] == ' '))
  }

  lemma {:induction false} CollapseIsSplitJoin(s: string, inRun: bool)
    requires SingleSpaced(s)
    requires inRun ==> s == [] || s[0] != ' '
    ensures ProductFilters.CollapseSpaces(s, inRun) == SpacesToHyphens(s)
  {
    if s != [] {
      assert SingleSpaced(s[1..]) by {
        forall i | 0 <= i < |s[1..]| - 1 ensures !(s[1..][i] == ' ' && s[1..][i + 1] == ' ') {
          assert s[1..][i] == s[i + 1] && s[1..][i + 1] == s[i + 2];
        }
      }
      if s[0] == ' ' {
        assert |s| > 1 ==> s[1] != ' ';
      }
      CollapseIsSplitJoin(s[1..], IsSpace(s[0]));
      assert SpacesToHyphens(s) == SpacesToHyphens([s[0]]) + SpacesToHyphens(s[1..]);
    }
  }

  /**
   * The two slug variants agree on labels without an ampersand whose only
   * whitespace is single spaces.
   */
  lemma InlineSlugAgrees(s: string)
    requires '&' !in s && SingleSpaced(s)
    ensures InlineSlug(s) == ProductFilters.FormatProductType(Some(s))
  {
    var lowered := Lower(s);
    assert '&' !in lowered;
    assert SingleSpaced(lowered) by {
      forall i | 0 <= i < |s| ensures (IsSpace(lowered[i]) <==> IsSpace(s[i])) && (lowered[i] == ' ' <==> s[i] == ' ') { }
    }
    ProductFilters.StripAmpersandsFree(lowered);
    CollapseIsSplitJoin(lowered, false);
  }

  /** The router query value of `key`, "" when absent (both are falsy). */
  function Param(query: map<string, string>, key: string): string {
    if key in query then query[key] else ""
  }

  predicate InPriceRange(p: Product, lo: int, hi: int) {
    lo <= p.price <= hi
  }

  predicate OnSale(p: Product) {
    p.discount > 0
  }

  predicate InStock(p: Product) {
    p.status == "in-stock"
  }

  /** The status stage: "on-sale" and "in-stock" filter, any other value does not. */
  predicate StatusMatches(p: Product, status: string) {
    if status == "on-sale" then OnSale(p)
    else if status == "in-stock" then InStock(p)
    else true
  }

  /** An unset criterion matches everything; a set one must equal the inline slug. */
  predicate SlugMatches(text: string, criterion: string) {
    criterion == "" || InlineSlug(text) == criterion
  }

  /** `product.productType?....`: a missing product type never matches a set criterion. */
  predicate TypeMatches(p: Product, criterion: string) {
    criterion == "" || (p.productType.Some? && InlineSlug(p.productType.value) == criterion)
  }

  /** `p.brand?.name`: present only for a brand record that has a name. */
  function BrandName(p: Product): Option<string> {
    if p.brand.Some? && p.brand.value.BrandRecord? then p.brand.value.name else None
  }

  predicate BrandMatches(p: Product, criterion: string) {
    criterion == "" || (BrandName(p).Some? && InlineSlug(BrandName(p).value) == criterion)
  }

  /** Every filter stage of the pipeline at once. */
  predicate Keep(p: Product, lo: int, hi: int, query: map<string, string>) {
    && InPriceRange(p, lo, hi)
    && StatusMatches(p, Param(query, "status"))
    && SlugMatches(p.parent, Param(query, "category"))
    && SlugMatches(p.children, Param(query, "subCategory"))
    && TypeMatches(p, Param(query, "productType"))
    && BrandMatches(p, Param(query, "brand"))
  }

  /** No filter parameter is set in the query. */
  predicate NoCriteria(query: map<string, string>) {
    && Param(query, "status") == ""
    && Param(query, "category") == ""
    && Param(query, "subCategory") == ""
    && Param(query, "productType") == ""
    && Param(query, "brand") == ""
  }

  /**
   * The slider-seeding fold `reduce((max, p) => p.price > max ? p.price : max, max)`:
   * at least `max` and every price, and equal to `max` or to some price.
   */
  function MaxPriceFrom(max: int, products: seq<Product>): (r: int)
    ensures r >= max
    ensures forall p :: p in products ==> p.price <= r
    ensures r == max || exists p :: p in products && p.price == r
    decreases products
  {
    if products == [] then max
    else MaxPriceFrom(if products[0].price > max then products[0].price else max, products[1..])
  }

  function MaxPrice(products: seq<Product>): (r: int)
    ensures r >= 0
  {
    MaxPriceFrom(0, products)
  }

  /**
   * With the slider at its initial bounds `[0, max price]`, no query
   * criteria and non-negative prices, the filter stages keep every product.
   */
  lemma InitialBoundsKeepEverything(products: seq<Product>, query: map<string, string>)
    requires forall p :: p in products ==> p.price >= 0
    requires NoCriteria(query)
    ensures Filter(products, (p: Product) => Keep(p, 0, MaxPrice(products), query)) == products
  {
    FilterKeepsAll(products, (p: Product) => Keep(p, 0, MaxPrice(products), query));
  }

  const LowToHigh := "Low to High"
  const HighToLow := "High to Low"
  const NewAdded := "New Added"
  const OnSaleOption := "On Sale"

  /** Sort keys: the comparators `a.price - b.price`, `b.price - a.price` and `b.createdAt - a.createdAt`. */
  function ByPrice(p: Product): real { p.price as real }
  function ByPriceDescending(p: Product): real { -(p.price as real) }
  function ByNewest(p: Product): real { -(p.createdAt as real) }

  /** What the sort stage leaves: the "On Sale" option filters instead of sorting. */
  function SaleView(products: seq<Product>, selectValue: string): seq<Product> {
    if selectValue == OnSaleOption then Filter(products, OnSale) else products
  }

  /** The list after the sort stage, as the select value prescribes. */
  ghost predicate SortStage(ordered: seq<Product>, products: seq<Product>, selectValue: string) {
    if selectValue == LowToHigh then multiset(ordered) == multiset(products) && SortedOn(ordered, ByPrice)
    else if selectValue == HighToLow then multiset(ordered) == multiset(products) && SortedOn(ordered, ByPriceDescending)
    else if selectValue == NewAdded then multiset(ordered) == multiset(products) && SortedOn(ordered, ByNewest)
    else ordered == SaleView(products, selectValue)
  }

  /** The shop page's own state: the price slider, the sort select and the current page. */
  class ShopPage {
    var priceValue: (int, int)
    var selectValue: string
    var currPage: int

    constructor ()
      ensures priceValue == (0, 0) && selectValue == "" && currPage == 1
    {
      priceValue := (0, 0);
      selectValue := "";
      currPage := 1;
    }

    /** The effect that sets the slider to `[0, max price]` once products are loaded. */
    method LoadMaxPrice(isLoading: bool, isError: bool, data: Option<seq<Product>>)
      modifies this
      ensures !isLoading && !isError && data.Some? && |data.value| > 0 ==>
        priceValue == (0, MaxPrice(data.value))
      ensures !(!isLoading && !isError && data.Some? && |data.value| > 0) ==> priceValue == old(priceValue)
      ensures selectValue == old(selectValue) && currPage == old(currPage)
    {
      if !isLoading && !isError && data.Some? && |data.value| > 0 {
        var maxPrice := MaxPriceFrom(0, data.value);
        priceValue := (0, maxPrice);
      }
    }

    /** `handleChanges`: a slider move resets the page and stores the bounds. */
    method HandleChanges(val: (int, int))
      modifies this
      ensures currPage == 1 && priceValue == val && selectValue == old(selectValue)
    {
      currPage := 1;
      priceValue := val;
    }

    /** `selectHandleFilter`: stores the chosen sort option. */
    method SelectHandleFilter(value: string)
      modifies this
      ensures selectValue == value && priceValue == old(priceValue) && currPage == old(currPage)
    {
      selectValue := value;
    }

    /** `setCurrPage`, handed down to the filter widgets. */
    method SetCurrPage(page: int)
      modifies this
      ensures currPage == page && priceValue == old(priceValue) && selectValue == old(selectValue)
    {
      currPage := page;
    }

    /**
     * The `filteredProducts` memo: `[]` without data; otherwise a copy of the
     * data goes through the sort stage (`ordered`) and then through the price,
     * status, category, sub-category, product-type and brand filters. The
     * fetched list itself is a value and cannot change.
     */
    method FilteredProducts(data: Option<seq<Product>>, query: map<string, string>)
      returns (items: seq<Product>, ghost ordered: seq<Product>)
      ensures data.None? ==> items == []
      ensures data.Some? ==> SortStage(ordered, data.value, selectValue)
      ensures data.Some? ==>
        var lo, hi := priceValue.0, priceValue.1;
        items == Filter(ordered, (p: Product) => Keep(p, lo, hi, query))
      ensures data.Some? ==>
        var lo, hi := priceValue.0, priceValue.1;
        multiset(items) == multiset(Filter(SaleView(data.value, selectValue), (p: Product) => Keep(p, lo, hi, query)))
      ensures forall i :: 0 <= i < |items| ==> Keep(items[i], priceValue.0, priceValue.1, query)
      ensures selectValue == OnSaleOption ==> forall i :: 0 <= i < |items| ==> items[i].discount > 0
      ensures selectValue == LowToHigh ==> forall i, j :: 0 <= i < j < |items| ==> items[i].price <= items[j].price
      ensures selectValue == HighToLow ==> forall i, j :: 0 <= i < j < |items| ==> items[i].price >= items[j].price
      ensures selectValue == NewAdded ==> forall i, j :: 0 <= i < j < |items| ==> items[i].createdAt >= items[j].createdAt
    {
      if data.None? {
        return [], [];
      }
      var source := data.value;
      var lo, hi := priceValue.0, priceValue.1;
      items := SortStageOf(source, selectValue);
      ordered := items;
      items := FilterStages(items, lo, hi, query);
      StagesOutcome(source, selectValue, ordered, items, lo, hi, query);
    }
  }

  /**
   * What the filter stages leave of the sort stage's list: the kept products
   * of the "On Sale" view (as a multiset), each one passing every filter,
   * discounted under "On Sale", and in the chosen order otherwise.
   */
  lemma StagesOutcome(source: seq<Product>, selectValue: string, ordered: seq<Product>, items: seq<Product>,
                      lo: int, hi: int, query: map<string, string>)
    requires SortStage(ordered, source, selectValue)
    requires items == Filter(ordered, (p: Product) => Keep(p, lo, hi, query))
    ensures multiset(items) == multiset(Filter(SaleView(source, selectValue), (p: Product) => Keep(p, lo, hi, query)))
    ensures forall i :: 0 <= i < |items| ==> Keep(items[i], lo, hi, query)
    ensures selectValue == OnSaleOption ==> forall i :: 0 <= i < |items| ==> items[i].discount > 0
    ensures selectValue == LowToHigh ==> forall i, j :: 0 <= i < j < |items| ==> items[i].price <= items[j].price
    ensures selectValue == HighToLow ==> forall i, j :: 0 <= i < j < |items| ==> items[i].price >= items[j].price
    ensures selectValue == NewAdded ==> forall i, j :: 0 <= i < j < |items| ==> items[i].createdAt >= items[j].createdAt
  {
    var keep := (p: Product) => Keep(p, lo, hi, query);
    if selectValue == LowToHigh {
      FilterSorted(ordered, keep, ByPrice);
      FilterPermutation(ordered, source, keep);
    } else if selectValue == HighToLow {
      FilterSorted(ordered, keep, ByPriceDescending);
      FilterPermutation(ordered, source, keep);
    } else if selectValue == NewAdded {
      FilterSorted(ordered, keep, ByNewest);
      FilterPermutation(ordered, source, keep);
    } else if selectValue == OnSaleOption {
      forall i | 0 <= i < |items| ensures items[i].discount > 0 {
        assert items[i] in ordered;
      }
    }
  }

  /** The sort stage on a copy of the fetched list (`[...products].sort(...)`). */
  method SortStageOf(source: seq<Product>, selectValue: string) returns (ordered: seq<Product>)
    ensures SortStage(ordered, source, selectValue)
  {
    var copy := new Product[|source|](i requires 0 <= i < |source| => source[i]);
    assert copy[..] == source;
    if selectValue == LowToHigh {
      SortBy(copy, ByPrice);
      ordered := copy[..];
    } else if selectValue == HighToLow {
      SortBy(copy, ByPriceDescending);
      ordered := copy[..];
    } else if selectValue == NewAdded {
      SortBy(copy, ByNewest);
      ordered := copy[..];
    } else if selectValue == OnSaleOption {
      ordered := Filter(copy[..], OnSale);
    } else {
      ordered := copy[..];
    }
  }

  /** Stage `n` of the filter chain, in the order the page applies them. */
  predicate StageMatches(p: Product, n: nat, lo: int, hi: int, query: map<string, string>) {
    if n == 0 then InPriceRange(p, lo, hi)
    else if n == 1 then StatusMatches(p, Param(query, "status"))
    else if n == 2 then SlugMatches(p.parent, Param(query, "category"))
    else if n == 3 then SlugMatches(p.children, Param(query, "subCategory"))
    else if n == 4 then TypeMatches(p, Param(query, "productType"))
    else if n == 5 then BrandMatches(p, Param(query, "brand"))
    else true
  }

  /** The first `n` stages together. */
  predicate KeepUpTo(p: Product, n: nat, lo: int, hi: int, query: map<string, string>) {
    n == 0 || (KeepUpTo(p, n - 1, lo, hi, query) && StageMatches(p, n - 1, lo, hi, query))
  }

  lemma AllStagesAreKeep(lo: int, hi: int, query: map<string, string>)
    ensures forall p :: KeepUpTo(p, 6, lo, hi, query) == Keep(p, lo, hi, query)
  {
    forall p ensures KeepUpTo(p, 6, lo, hi, query) == Keep(p, lo, hi, query) {
      assert KeepUpTo(p, 1, lo, hi, query) == StageMatches(p, 0, lo, hi, query);
      assert KeepUpTo(p, 2, lo, hi, query) == (KeepUpTo(p, 1, lo, hi, query) && StageMatches(p, 1, lo, hi, query));
      assert KeepUpTo(p, 3, lo, hi, query) == (KeepUpTo(p, 2, lo, hi, query) && StageMatches(p, 2, lo, hi, query));
      assert KeepUpTo(p, 4, lo, hi, query) == (KeepUpTo(p, 3, lo, hi, query) && StageMatches(p, 3, lo, hi, query));
      assert KeepUpTo(p, 5, lo, hi, query) == (KeepUpTo(p, 4, lo, hi, query) && StageMatches(p, 4, lo, hi, query));
      assert KeepUpTo(p, 6, lo, hi, query) == (KeepUpTo(p, 5, lo, hi, query) && StageMatches(p, 5, lo, hi, query));
    }
  }

  /** The list after the first `n` stages. */
  ghost function AfterStages(ordered: seq<Product>, n: nat, lo: int, hi: int, query: map<string, string>): seq<Product> {
    Filter(ordered, (p: Product) => KeepUpTo(p, n, lo, hi, query))
  }

  /** The filter stages after sorting; each stage runs only when its parameter is set. */
  method FilterStages(ordered: seq<Product>, lo: int, hi: int, query: map<string, string>)
    returns (items: seq<Product>)
    ensures items == Filter(ordered, (p: Product) => Keep(p, lo, hi, query))
  {
    items := PriceStage(ordered, lo, hi, query);
    items := StatusStage(ordered, items, lo, hi, query);
    items := SlugStage(ordered, items, 2, lo, hi, query);
    items := SlugStage(ordered, items, 3, lo, hi, query);
    items := ProductTypeStage(ordered, items, lo, hi, query);
    items := BrandStage(ordered, items, lo, hi, query);
    AfterAllStages(ordered, lo, hi, query);
  }

  /** The price stage, which always runs: the inclusive range `[lo, hi]`. */
  method PriceStage(ordered: seq<Product>, lo: int, hi: int, ghost query: map<string, string>)
    returns (narrowed: seq<Product>)
    ensures narrowed == AfterStages(ordered, 1, lo, hi, query)
  {
    NoStages(ordered, lo, hi, query);
    var inRange := (p: Product) => InPriceRange(p, lo, hi);
    assert forall p :: inRange(p) == StageMatches(p, 0, lo, hi, query);
    narrowed := Narrow(ordered, ordered, 0, lo, hi, query, inRange);
  }

  /** Before any stage the list is the sorted list itself. */
  lemma NoStages(ordered: seq<Product>, lo: int, hi: int, query: map<string, string>)
    ensures AfterStages(ordered, 0, lo, hi, query) == ordered
  {
    FilterKeepsAll(ordered, (p: Product) => KeepUpTo(p, 0, lo, hi, query));
  }

  /** After all six stages the list is the sorted list filtered by `Keep`. */
  lemma AfterAllStages(ordered: seq<Product>, lo: int, hi: int, query: map<string, string>)
    ensures AfterStages(ordered, 6, lo, hi, query) == Filter(ordered, (p: Product) => Keep(p, lo, hi, query))
  {
    AllStagesAreKeep(lo, hi, query);
    FilterSame(ordered, (p: Product) => KeepUpTo(p, 6, lo, hi, query), (p: Product) => Keep(p, lo, hi, query));
  }

  /** The `status` stage: "on-sale" keeps discounted products, "in-stock" keeps stocked ones. */
  method StatusStage(ghost ordered: seq<Product>, items: seq<Product>, ghost lo: int, ghost hi: int, query: map<string, string>)
    returns (narrowed: seq<Product>)
    requires items == AfterStages(ordered, 1, lo, hi, query)
    ensures narrowed == AfterStages(ordered, 2, lo, hi, query)
  {
    var status := Param(query, "status");
    if status == "on-sale" {
      narrowed := Narrow(ordered, items, 1, lo, hi, query, OnSale);
    } else if status == "in-stock" {
      narrowed := Narrow(ordered, items, 1, lo, hi, query, InStock);
    } else {
      Skip(ordered, 1, lo, hi, query);
      narrowed := items;
    }
  }

  /** The `category` (stage 2, against `parent`) and `subCategory` (stage 3, against `children`) stages. */
  method SlugStage(ghost ordered: seq<Product>, items: seq<Product>, n: nat, ghost lo: int, ghost hi: int, query: map<string, string>)
    returns (narrowed: seq<Product>)
    requires n == 2 || n == 3
    requires items == AfterStages(ordered, n, lo, hi, query)
    ensures narrowed == AfterStages(ordered, n + 1, lo, hi, query)
  {
    var criterion := Param(query, if n == 2 then "category" else "subCategory");
    if criterion != "" {
      var field := if n == 2 then (p: Product) => p.parent else (p: Product) => p.children;
      narrowed := Narrow(ordered, items, n, lo, hi, query, (p: Product) => SlugMatches(field(p), criterion));
    } else {
      Skip(ordered, n, lo, hi, query);
      narrowed := items;
    }
  }

  /** The `productType` stage. */
  method ProductTypeStage(ghost ordered: seq<Product>, items: seq<Product>, ghost lo: int, ghost hi: int, query: map<string, string>)
    returns (narrowed: seq<Product>)
    requires items == AfterStages(ordered, 4, lo, hi, query)
    ensures narrowed == AfterStages(ordered, 5, lo, hi, query)
  {
    var productType := Param(query, "productType");
    if productType != "" {
      narrowed := Narrow(ordered, items, 4, lo, hi, query, (p: Product) => TypeMatches(p, productType));
    } else {
      Skip(ordered, 4, lo, hi, query);
      narrowed := items;
    }
  }

  /** The `brand` stage. */
  method BrandStage(ghost ordered: seq<Product>, items: seq<Product>, ghost lo: int, ghost hi: int, query: map<string, string>)
    returns (narrowed: seq<Product>)
    requires items == AfterStages(ordered, 5, lo, hi, query)
    ensures narrowed == AfterStages(ordered, 6, lo, hi, query)
  {
    var brand := Param(query, "brand");
    if brand != "" {
      narrowed := Narrow(ordered, items, 5, lo, hi, query, (p: Product) => BrandMatches(p, brand));
    } else {
      Skip(ordered, 5, lo, hi, query);
      narrowed := items;
    }
  }

  /** One filter stage: `items = items.filter(stage)` where `stage` decides stage `n`. */
  method Narrow(ghost ordered: seq<Product>, items: seq<Product>, ghost n: nat, ghost lo: int, ghost hi: int,
                ghost query: map<string, string>, stage: Product -> bool)
    returns (narrowed: seq<Product>)
    requires items == AfterStages(ordered, n, lo, hi, query)
    requires forall p :: stage(p) == StageMatches(p, n, lo, hi, query)
    ensures narrowed == AfterStages(ordered, n + 1, lo, hi, query)
  {
    narrowed := Filter(items, stage);
    FilterThen(ordered, (p: Product) => KeepUpTo(p, n, lo, hi, query), stage,
      (p: Product) => KeepUpTo(p, n + 1, lo, hi, query));
  }

  /** A stage whose parameter is unset keeps everything. */
  lemma Skip(ordered: seq<Product>, n: nat, lo: int, hi: int, query: map<string, string>)
    requires forall p :: StageMatches(p, n, lo, hi, query)
    ensures AfterStages(ordered, n, lo, hi, query) == AfterStages(ordered, n + 1, lo, hi, query)
  {
    FilterSame(ordered, (p: Product) => KeepUpTo(p, n, lo, hi, query), (p: Product) => KeepUpTo(p, n + 1, lo, hi, query));
  }
}
