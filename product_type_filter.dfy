/**
 * The "Filter by Product Type" sidebar widget: per-label counts, the sorted
 * facet list, which facet is active, and the query toggle a click performs.
 */
module ProductTypeFilter {
  import opened Wrappers
  import opened Text
  import opened Seqs
  import opened Catalog
  import opened ProductFilters
  import Shop

  /**
   * `isActive`, `router.query.productType === formattedType`: the parameter
   * is present and equals the label's slug. An absent parameter is
   * `undefined`, never equal to a slug, not even the empty one.
   */
  predicate IsActive(query: map<string, string>, raw: string)
    ensures IsActive(query, raw) ==> Shop.Param(query, "productType") == FormatProductType(Some(raw))
    ensures FormatProductType(Some(raw)) != "" ==>
      (IsActive(query, raw) <==> Shop.Param(query, "productType") == FormatProductType(Some(raw)))
    ensures "productType" !in query ==> !IsActive(query, raw)
  {
    "productType" in query && query["productType"] == FormatProductType(Some(raw))
  }

  /**
   * The query `handleProductType` pushes: `page` is gone, `productType` is
   * toggled between the label's slug and absent, every other key is kept.
   */
  function Toggled(query: map<string, string>, raw: string): (r: map<string, string>)
    ensures "page" !in r
    ensures forall k :: k in query && k != "page" && k != "productType" ==> k in r && r[k] == query[k]
    ensures forall k :: k in r ==> k in query || k == "productType"
    ensures IsActive(query, raw) ==> "productType" !in r
    ensures !IsActive(query, raw) ==> "productType" in r && r["productType"] == FormatProductType(Some(raw))
  {
    var copy := query - {"page"};
    if IsActive(query, raw) then copy - {"productType"}
    else copy["productType" := FormatProductType(Some(raw))]
  }

  /** A click flips whether the clicked facet is active. */
  lemma ToggleFlipsActive(query: map<string, string>, raw: string)
    ensures IsActive(Toggled(query, raw), raw) <==> !IsActive(query, raw)
  {
  }

  /** Clicking the same facet twice from a query without a product type leaves none. */
  lemma ToggleTwiceClears(query: map<string, string>, raw: string)
    requires "productType" !in query
    ensures "productType" !in Toggled(Toggled(query, raw), raw)
    ensures forall k :: k in query && k != "page" ==> k in Toggled(Toggled(query, raw), raw)
  {
    assert !IsActive(query, raw);
    assert IsActive(Toggled(query, raw), raw);
  }

  /**
   * `handleProductType`: resets the shop page to 1, then copies the query,
   * deletes `page` and toggles `productType`. Pushing the route and closing
   * the sidebar are left to the caller.
   */
  method HandleProductType(shop: Shop.ShopPage, query: map<string, string>, raw: string)
    returns (newQuery: map<string, string>)
    modifies shop
    ensures shop.currPage == 1
    ensures shop.priceValue == old(shop.priceValue) && shop.selectValue == old(shop.selectValue)
    ensures newQuery == Toggled(query, raw)
  {
    shop.SetCurrPage(1);
    var formattedType := FormatProductType(Some(raw));
    newQuery := query;
    newQuery := newQuery - {"page"};
    if "productType" in newQuery && newQuery["productType"] == formattedType {
      newQuery := newQuery - {"productType"};
    } else {
      newQuery := newQuery["productType" := formattedType];
    }
  }

  /** Labels in strictly ascending order, hence without repeats. */
  predicate StrictlyAscending(labels: seq<string>) {
    forall i, j :: 0 <= i < j < |labels| ==> Less(labels[i], labels[j])
  }

  lemma AscendingIsDistinct(labels: seq<string>)
    requires StrictlyAscending(labels)
    ensures Distinct(labels)
  {
    forall i, j | 0 <= i < j < |labels| ensures labels[i] != labels[j] {
      LessIrreflexive(labels[i]);
    }
  }

  /** Places a new label at its position in an ascending list. */
  function InsertSorted(labels: seq<string>, t: string): (r: seq<string>)
    requires StrictlyAscending(labels) && t !in labels
    ensures StrictlyAscending(r)
    ensures |r| == |labels| + 1
    ensures forall x :: x in r <==> x in labels || x == t
  {
    if labels == [] then [t]
    else if Less(t, labels[0]) then
      assert forall j :: 0 <= j < |labels| ==> Less(t, labels[j]) by {
        forall j | 0 < j < |labels| ensures Less(t, labels[j]) {
          LessTransitive(t, labels[0], labels[j]);
        }
      }
      [t] + labels
    else
      LessTotal(t, labels[0]);
      var rest := InsertSorted(labels[1..], t);
      assert forall x :: x in rest ==> Less(labels[0], x);
      [labels[0]] + rest
  }

  /** `Object.keys(productTypeCounts).sort(...)`: every counted label once, ascending. */
  method SortedProductTypes(counts: map<string, nat>) returns (labels: seq<string>)
    ensures StrictlyAscending(labels)
    ensures forall t :: t in labels <==> t in counts
    ensures |labels| == |counts.Keys|
  {
    labels := [];
    var remaining := counts.Keys;
    while remaining != {}
      invariant StrictlyAscending(labels)
      invariant forall t :: t in counts <==> t in labels || t in remaining
      invariant forall t :: t in labels ==> t !in remaining
      invariant |labels| + |remaining| == |counts.Keys|
      decreases |remaining|
    {
      var t :| t in remaining;
      labels := InsertSorted(labels, t);
      remaining := remaining - {t};
    }
  }

  /** One rendered facet: the raw label, its count and whether it is checked. */
  datatype Facet = Facet(raw: string, count: nat, active: bool)

  /** What the widget shows. */
  datatype FacetView = Loading | LoadError | NoProducts | Facets(entries: seq<Facet>)

  function RawLabels(entries: seq<Facet>): (r: seq<string>)
    ensures |r| == |entries| && forall i :: 0 <= i < |entries| ==> r[i] == entries[i].raw
  {
    seq(|entries|, i requires 0 <= i < |entries| => entries[i].raw)
  }

  /** Sum of the displayed counts. */
  function TotalCount(entries: seq<Facet>): nat {
    if entries == [] then 0 else entries[0].count + TotalCount(entries[1..])
  }

  /** The facet list of `products` under `query`. */
  ghost predicate FacetsOf(entries: seq<Facet>, products: seq<Product>, query: map<string, string>) {
    && StrictlyAscending(RawLabels(entries))
    && (forall t :: t in RawLabels(entries) <==> t in Labels(products))
    && forall i :: 0 <= i < |entries| ==>
         && entries[i].count == CountOf(products, entries[i].raw)
         && entries[i].count > 0
         && entries[i].active == IsActive(query, entries[i].raw)
  }

  /**
   * The widget's content: loader, error, "no products", or one facet per
   * counted label in ascending order with its count and checked state.
   */
  method ProductTypeFacets(isLoading: bool, isError: bool, data: Option<seq<Product>>, query: map<string, string>)
    returns (view: FacetView)
    ensures isLoading ==> view == Loading
    ensures !isLoading && isError ==> view == LoadError
    ensures !isLoading && !isError && (data.None? || data.value == []) ==> view == NoProducts
    ensures !isLoading && !isError && data.Some? && data.value != [] ==>
      view.Facets? && FacetsOf(view.entries, data.value, query)
  {
    if isLoading {
      return Loading;
    } else if isError {
      return LoadError;
    } else if data.None? || data.value == [] {
      return NoProducts;
    }
    var products := data.value;
    var counts := GetProductTypeCounts(products);
    var labels := SortedProductTypes(counts);
    var entries := seq(|labels|, i requires 0 <= i < |labels| =>
      Facet(labels[i], counts[labels[i]], IsActive(query, labels[i])));
    assert RawLabels(entries) == labels;
    view := Facets(entries);
  }

  lemma {:induction false} TotalIsSumCounts(entries: seq<Facet>, products: seq<Product>)
    requires forall i :: 0 <= i < |entries| ==> entries[i].count == CountOf(products, entries[i].raw)
    ensures TotalCount(entries) == SumCounts(products, RawLabels(entries))
  {
    if entries != [] {
      TotalIsSumCounts(entries[1..], products);
      assert RawLabels(entries)[1..] == RawLabels(entries[1..]);
    }
  }

  /** The displayed counts add up to the number of products that have a product type. */
  lemma FacetCountsSum(entries: seq<Facet>, products: seq<Product>, query: map<string, string>)
    requires FacetsOf(entries, products, query)
    ensures TotalCount(entries) == LabelledCount(products)
  {
    TotalIsSumCounts(entries, products);
    AscendingIsDistinct(RawLabels(entries));
    CountsSumToLabelled(products, RawLabels(entries));
  }

  /**
   * Two raw labels that differ only in the length of a whitespace run share
   * one slug, so clicking either facet checks both.
   */
  lemma SharedSlugChecksBoth(query: map<string, string>, a: string, b: string)
    requires IsActive(query, a + " " + b)
    ensures IsActive(query, a + "  " + b)
  {
    FormatIgnoresRunLength(a, ' ', " " + b);
    assert a + "  " + b == a + [' '] + (" " + b);
    assert a + " " + b == a + (" " + b);
  }

  /** A label whose ampersand separates the two slug variants. */
  const BodyAndCare := "Body & Care"

  /**
   * The utility slug of "Body & Care" drops the ampersand and merges the two
   * spaces it leaves ("body-care"); the inline slug keeps both spaces as
   * hyphens ("body--care"), so the two differ in length.
   */
  lemma BodyAndCareSlugsDiffer()
    ensures |FormatProductType(Some(BodyAndCare))| <= 9
    ensures |Shop.InlineSlug(BodyAndCare)| == 10
  {
    assert BodyAndCare[5] == '&';
    StripBodyAndCare();
    CollapseIgnoresRunLength("body", ' ', " care", false);
  }

  lemma LowerBodyAndCare()
    ensures Lower(BodyAndCare) == "body " + "&" + " care"
  {
  }

  lemma StripBodyAndCare()
    ensures StripAmpersands(Lower(BodyAndCare)) == "body" + [' '] + " care"
  {
    LowerBodyAndCare();
    StripOneAmpersand("body ", " care");
    assert "body " + " care" == "body" + [' '] + " care";
  }

  lemma StripOneAmpersand(a: string, b: string)
    requires '&' !in a && '&' !in b
    ensures StripAmpersands(a + "&" + b) == a + b
  {
    var amp := ['&'];
    assert a + "&" + b == (a + amp) + b;
    StripAmpersandsAppend(a + amp, b);
    StripAmpersandsAppend(a, amp);
    assert StripAmpersands(amp) == [] by {
      assert amp[1..] == [];
    }
    StripAmpersandsFree(a);
    StripAmpersandsFree(b);
    assert StripAmpersands(a + amp) == a;
  }

  /**
   * As written: the facet for "Body & Care" counts its product, and clicking
   * it makes the facet checked, yet the shop's product-type stage compares
   * the inline slug "body--care" with "body-care" and drops that product.
   */
  lemma AmpersandFacetShowsNothing(p: Product, lo: int, hi: int)
    requires p.productType == Some(BodyAndCare)
    ensures CountOf([p], BodyAndCare) == 1
    ensures IsActive(Toggled(map[], BodyAndCare), BodyAndCare)
    ensures !Shop.Keep(p, lo, hi, Toggled(map[], BodyAndCare))
  {
    CountedOnce(p, BodyAndCare);
    var query := Toggled(map[], BodyAndCare);
    assert !IsActive(map[], BodyAndCare);
    assert Shop.Param(query, "productType") == FormatProductType(Some(BodyAndCare));
    BodyAndCareDropped(p);
  }

  lemma CountedOnce(p: Product, raw: string)
    requires p.productType == Some(raw) && raw != ""
    ensures CountOf([p], raw) == 1
  {
    CountOfSnoc([], p, raw);
    assert [] + [p] == [p];
  }

  lemma BodyAndCareDropped(p: Product)
    requires p.productType == Some(BodyAndCare)
    ensures !Shop.TypeMatches(p, FormatProductType(Some(BodyAndCare)))
  {
    BodyAndCareSlugsDiffer();
  }

  /**
   * Corrected: filtering with the shared slug keeps every product counted
   * under the selected facet, so the grid never shows fewer products than the
   * facet's count.
   */
  lemma SelectedFacetKeepsItsProducts(products: seq<Product>, raw: string)
    requires raw != ""
    ensures forall p :: p in products && HasLabel(p, raw) ==> p in FilterProductsByType(products, FormatProductType(Some(raw)))
    ensures CountOf(products, raw) <= |FilterProductsByType(products, FormatProductType(Some(raw)))|
  {
    var slug := FormatProductType(Some(raw));
    var matches := (p: Product) => FormatProductType(p.productType) == slug;
    FilterMonotone(products, (p: Product) => HasLabel(p, raw), matches);
    if slug == "" {
      FilterKeepsAll(products, (p: Product) => true);
      FilterMonotone(products, matches, (p: Product) => true);
    }
  }
}
