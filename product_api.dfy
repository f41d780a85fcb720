/**
 * Result post-processing in the product API: serialising caught errors,
 * flattening stored documents, the query plan for products of one type,
 * and ranking products by their average review rating.
 */
module ProductApi {
  import opened Wrappers
  import opened Seqs
  import opened Catalog

  /** A caught error; any of its properties may be missing. */
  datatype JsError = JsError(name: Option<string>, message: Option<string>, stack: Option<string>, code: Option<string>)

  /** The plain object the API returns in place of an error. */
  datatype SerializedError = SerializedError(name: string, message: string, stack: Option<string>, code: Option<string>)

  /**
   * `serializeError`: nothing for a missing error; otherwise a name and a
   * message that are never empty, a code that is absent rather than empty,
   * and the stack only in development mode.
   */
  function SerializeError(error: Option<JsError>, development: bool): (r: Option<SerializedError>)
    ensures r.None? <==> error.None?
    ensures r.Some? ==> r.value.name != "" && r.value.message != ""
    ensures r.Some? ==> r.value.code.None? || r.value.code.value != ""
    ensures r.Some? && !development ==> r.value.stack.None?
    ensures r.Some? && development ==> r.value.stack == error.value.stack
    ensures r.Some? && Truthy(error.value.name) ==> r.value.name == error.value.name.value
    ensures r.Some? && Truthy(error.value.message) ==> r.value.message == error.value.message.value
    ensures r.Some? && Truthy(error.value.code) ==> r.value.code == error.value.code
    ensures r.Some? && !Truthy(error.value.name) ==> r.value.name == "Error"
    ensures r.Some? && !Truthy(error.value.message) ==> r.value.message == "Unknown error"
    ensures r.Some? && !Truthy(error.value.code) ==> r.value.code.None?
  {
    match error
    case None => None
    case Some(e) =>
      Some(SerializedError(
        if Truthy(e.name) then e.name.value else "Error",
        if Truthy(e.message) then e.message.value else "Unknown error",
        if development then e.stack else None,
        if Truthy(e.code) then e.code else None))
  }

  /** A serialised error read back as an error object. */
  function AsError(s: SerializedError): JsError {
    JsError(Some(s.name), Some(s.message), s.stack, s.code)
  }

  /** Serialising an already serialised error gives it back unchanged. */
  lemma SerializeErrorIdempotent(error: JsError, development: bool)
    ensures var once := SerializeError(Some(error), development).value;
      SerializeError(Some(AsError(once)), development) == Some(once)
  {
  }

  /** A stored field value. */
  datatype Value =
    | Str(s: string)
    | Num(n: int)
    | Bool(b: bool)
    | Null
    | Timestamp(millis: int)
    | Ref(path: string)
    | Arr(items: seq<Value>)
    | Obj(fields: map<string, Value>)

  /** JavaScript truthiness of a value. */
  predicate TruthyValue(v: Value) {
    match v
    case Str(s) => s != ""
    case Num(n) => n != 0
    case Bool(b) => b
    case Null => false
    case _ => true
  }

  /** `value?.path` is truthy. */
  predicate HasPath(v: Value) {
    (v.Ref? && v.path != "") || (v.Obj? && "path" in v.fields && TruthyValue(v.fields["path"]))
  }

  function PathOf(v: Value): Value
    requires HasPath(v)
  {
    if v.Ref? then Str(v.path) else v.fields["path"]
  }

  /**
   * One entry of the conversion: a timestamp becomes its ISO text (`iso`
   * stands for `toDate().toISOString()`), a value with a truthy `path`
   * becomes that path, anything else is kept.
   */
  function ConvertValue(v: Value, iso: int -> string): (r: Value)
    ensures v.Timestamp? ==> r == Str(iso(v.millis))
    ensures !v.Timestamp? && HasPath(v) ==> r == PathOf(v)
    ensures !v.Timestamp? && !HasPath(v) ==> r == v
  {
    if v.Timestamp? then Str(iso(v.millis))
    else if HasPath(v) then PathOf(v)
    else v
  }

  /** A stored document: its id and its data. */
  datatype Doc = Doc(id: string, data: map<string, Value>)

  /**
   * `serializeFirestoreDoc`: `{ id, ...converted data }`. Every data key is
   * kept with its converted value, `id` is added, and a data field named
   * `id` wins over the document id because it is spread after it.
   */
  function SerializeFirestoreDoc(doc: Doc, iso: int -> string): (r: map<string, Value>)
    ensures r.Keys == doc.data.Keys + {"id"}
    ensures forall k :: k in doc.data ==> r[k] == ConvertValue(doc.data[k], iso)
    ensures "id" !in doc.data ==> r["id"] == Str(doc.id)
  {
    var converted := map k | k in doc.data :: ConvertValue(doc.data[k], iso);
    map["id" := Str(doc.id)] + converted
  }

  /** A value with no timestamp and no path needs no conversion. */
  predicate Plain(v: Value) {
    !v.Timestamp? && !HasPath(v)
  }

  /** A document of plain values comes back as its data with the id added. */
  lemma PlainDocumentKeepsData(doc: Doc, iso: int -> string)
    requires forall k :: k in doc.data ==> Plain(doc.data[k])
    requires "id" !in doc.data
    ensures SerializeFirestoreDoc(doc, iso) == doc.data["id" := Str(doc.id)]
  {
    var r := SerializeFirestoreDoc(doc, iso);
    assert r.Keys == doc.data["id" := Str(doc.id)].Keys;
  }

  /** An `orderBy(field, direction)` clause. */
  datatype Ordering = Ordering(field: string, descending: bool)

  /** The constraints the type query adds to `productType == type`. */
  datatype QueryPlan = QueryPlan(productType: string, orderBy: Option<Ordering>, featuredOnly: bool, limit: Option<nat>)

  /** `queryParams?.[key] === "true"`. */
  predicate Flag(params: Option<map<string, string>>, key: string) {
    params.Some? && key in params.value && params.value[key] == "true"
  }

  /**
   * The `getProductType` plan: `new` (newest first, 8) wins over `featured`
   * (featured only), which wins over `topSellers` (best sellers first, 8).
   */
  function ProductTypeQuery(productType: string, params: Option<map<string, string>>): (r: QueryPlan)
    ensures r.productType == productType
    ensures Flag(params, "new") ==> r == QueryPlan(productType, Some(Ordering("createdAt", true)), false, Some(8))
    ensures !Flag(params, "new") && Flag(params, "featured") ==> r == QueryPlan(productType, None, true, None)
    ensures !Flag(params, "new") && !Flag(params, "featured") && Flag(params, "topSellers") ==>
      r == QueryPlan(productType, Some(Ordering("sellCount", true)), false, Some(8))
    ensures !Flag(params, "new") && !Flag(params, "featured") && !Flag(params, "topSellers") ==>
      r == QueryPlan(productType, None, false, None)
  {
    if Flag(params, "new") then QueryPlan(productType, Some(Ordering("createdAt", true)), false, Some(8))
    else if Flag(params, "featured") then QueryPlan(productType, None, true, None)
    else if Flag(params, "topSellers") then QueryPlan(productType, Some(Ordering("sellCount", true)), false, Some(8))
    else QueryPlan(productType, None, false, None)
  }

  /** With `new` set, the other two options have no effect. */
  lemma NewOverridesOthers(productType: string, params: map<string, string>, key: string, value: string)
    requires "new" in params && params["new"] == "true"
    requires key != "new"
    ensures ProductTypeQuery(productType, Some(params[key := value])) == ProductTypeQuery(productType, Some(params))
  {
    assert Flag(Some(params[key := value]), "new");
  }

  /**
   * A plan never both filters to featured products and limits or orders, and
   * every ordered plan is descending (newest or best-selling first).
   */
  lemma PlanShapes(productType: string, params: Option<map<string, string>>)
    ensures var r := ProductTypeQuery(productType, params);
      && (r.limit.Some? <==> r.orderBy.Some?)
      && (r.featuredOnly ==> r.limit.None?)
      && (r.limit.Some? ==> r.limit.value == 8)
      && (r.orderBy.Some? ==> r.orderBy.value.descending)
  {
  }

  /** A product with its average rating attached. */
  datatype Rated = Rated(product: Product, rating: real)

  /** `reviews.reduce((sum, r) => sum + r.rating, 0)`. */
  function SumRatings(reviews: seq<Review>): (r: real)
    ensures |reviews| == 1 ==> r == reviews[0].rating
  {
    if reviews == [] then 0.0 else SumRatings(reviews[..|reviews| - 1]) + reviews[|reviews| - 1].rating
  }

  /** `totalRating / reviews.length`: the mean rating. */
  function Average(reviews: seq<Review>): (r: real)
    requires reviews != []
    ensures |reviews| == 1 ==> r == reviews[0].rating
    ensures (forall i :: 0 <= i < |reviews| ==> reviews[i].rating == reviews[0].rating) ==> r == reviews[0].rating
  {
    var n := |reviews| as real;
    var v := reviews[0].rating;
    assert (forall i :: 0 <= i < |reviews| ==> reviews[i].rating == v) ==> SumRatings(reviews) == n * v by {
      if forall i :: 0 <= i < |reviews| ==> reviews[i].rating == v {
        SumRatingsWithin(reviews, v, v);
      }
    }
    SumRatings(reviews) / n
  }

  lemma {:induction false} SumRatingsWithin(reviews: seq<Review>, lo: real, hi: real)
    requires forall i :: 0 <= i < |reviews| ==> lo <= reviews[i].rating <= hi
    ensures (|reviews| as real) * lo <= SumRatings(reviews) <= (|reviews| as real) * hi
  {
    if reviews != [] {
      var init := reviews[..|reviews| - 1];
      var m := |init| as real;
      SumRatingsWithin(init, lo, hi);
      assert (m + 1.0) * lo == m * lo + lo && (m + 1.0) * hi == m * hi + hi;
    }
  }

  /** The average lies within the range of the ratings. */
  lemma AverageWithin(reviews: seq<Review>, lo: real, hi: real)
    requires reviews != []
    requires forall i :: 0 <= i < |reviews| ==> lo <= reviews[i].rating <= hi
    ensures lo <= Average(reviews) <= hi
  {
    SumRatingsWithin(reviews, lo, hi);
    QuotientWithin(SumRatings(reviews), |reviews| as real, lo, hi);
  }

  lemma QuotientWithin(sum: real, n: real, lo: real, hi: real)
    requires 0.0 < n && n * lo <= sum <= n * hi
    ensures lo <= sum / n <= hi
  {
  }

  /** Each reviewed product with its average rating, in input order. */
  function WithRatings(products: seq<Product>): (r: seq<Rated>)
    requires forall i :: 0 <= i < |products| ==> products[i].reviews != []
    ensures |r| == |products|
    ensures forall i :: 0 <= i < |r| ==> r[i] == Rated(products[i], Average(products[i].reviews))
  {
    seq(|products|, i requires 0 <= i < |products| => Rated(products[i], Average(products[i].reviews)))
  }

  function NegRating(x: Rated): real { -x.rating }

  /**
   * The top-rated step: attach averages, sort by rating (highest first) and
   * keep the first eight. The query only returns products with reviews.
   */
  method TopRated(products: seq<Product>) returns (top: seq<Rated>)
    requires forall i :: 0 <= i < |products| ==> products[i].reviews != []
    ensures |top| == if |products| < 8 then |products| else 8
    ensures forall i, j :: 0 <= i < j < |top| ==> top[i].rating >= top[j].rating
    ensures multiset(top) <= multiset(WithRatings(products))
    ensures forall x :: x in WithRatings(products) && multiset(top)[x] < multiset(WithRatings(products))[x] ==>
      forall i :: 0 <= i < |top| ==> x.rating <= top[i].rating
  {
    var rated := WithRatings(products);
    var sorted := SortedByRating(rated);
    var k := if |sorted| < 8 then |sorted| else 8;
    top := sorted[..k];
    TopPrefix(sorted, rated, k);
  }

  /** `sort((a, b) => b.rating - a.rating)` on a copy: highest rating first. */
  method SortedByRating(rated: seq<Rated>) returns (sorted: seq<Rated>)
    ensures SortedOn(sorted, NegRating)
    ensures multiset(sorted) == multiset(rated)
  {
    var a := new Rated[|rated|](i requires 0 <= i < |rated| => rated[i]);
    assert a[..] == rated;
    SortBy(a, NegRating);
    sorted := a[..];
  }

  /** The first `k` of a list sorted highest rating first are a best-rated selection. */
  lemma TopPrefix(sorted: seq<Rated>, all: seq<Rated>, k: nat)
    requires k <= |sorted|
    requires SortedOn(sorted, NegRating)
    requires multiset(sorted) == multiset(all)
    ensures forall i, j :: 0 <= i < j < k ==> sorted[i].rating >= sorted[j].rating
    ensures multiset(sorted[..k]) <= multiset(all)
    ensures forall x :: x in all && multiset(sorted[..k])[x] < multiset(all)[x] ==>
      forall i :: 0 <= i < k ==> x.rating <= sorted[i].rating
  {
    assert sorted == sorted[..k] + sorted[k..];
    assert multiset(sorted) == multiset(sorted[..k]) + multiset(sorted[k..]);
    forall x | x in all && multiset(sorted[..k])[x] < multiset(all)[x]
      ensures forall i :: 0 <= i < k ==> x.rating <= sorted[i].rating
    {
      assert x in multiset(sorted[k..]);
      var j :| k <= j < |sorted| && sorted[j] == x by {
        assert x in sorted[k..];
      }
      forall i | 0 <= i < k ensures x.rating <= sorted[i].rating {
        assert NegRating(sorted[i]) <= NegRating(sorted[j]);
      }
    }
    forall i, j | 0 <= i < j < k ensures sorted[i].rating >= sorted[j].rating {
      assert NegRating(sorted[i]) <= NegRating(sorted[j]);
    }
  }
}
