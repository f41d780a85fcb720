/**
 * The shared product-type helpers: the slug normaliser, filtering by slug,
 * and per-label counting.
 */
module ProductFilters {
  import opened Wrappers
  import opened Text
  import opened Seqs
  import opened Catalog

  /** `replace(/&/g, "")`: deletes every ampersand. */
  function StripAmpersands(s: string): (r: string)
    ensures '&' !in r
    ensures |r| <= |s|
    ensures forall c :: c in r ==> c in s
  {
    if s == [] then []
    else (if s[0] == '&' then [] else [s[0]]) + StripAmpersands(s[1..])
  }

  /**
   * `replace(/\s+/g, "-")`, scanning left to right: `inRun` says the previous
   * character was whitespace, so a whitespace character continues a run that
   * already produced its hyphen.
   */
  function CollapseSpaces(s: string, inRun: bool): (r: string)
    ensures forall c :: c in r ==> !IsSpace(c)
    ensures forall c :: c in r ==> c == '-' || c in s
    ensures |r| <= |s|
  {
    if s == [] then []
    else if IsSpace(s[0]) then (if inRun then "" else "-") + CollapseSpaces(s[1..], true)
    else [s[0]] + CollapseSpaces(s[1..], false)
  }

  /** No two whitespace characters in a row: every whitespace run has length one. */
  predicate SingleRuns(s: string) {
    forall i :: 0 <= i < |s| - 1 ==> !(IsSpace(s[i]) && IsSpace(s[i + 1]))
  }

  /**
   * On text whose whitespace runs all have length one, every whitespace
   * character, of whichever kind, becomes `-` and everything else stays in
   * place. With `CollapseIgnoresRunLength` this covers runs of any length.
   */
  lemma {:induction false} CollapseSingleRuns(s: string, inRun: bool)
    requires SingleRuns(s)
    requires inRun ==> s == [] || !IsSpace(s[0])
    ensures |CollapseSpaces(s, inRun)| == |s|
    ensures forall i :: 0 <= i < |s| ==> CollapseSpaces(s, inRun)[i] == if IsSpace(s[i]) then '-' else s[i]
  {
    if s != [] {
      var t := s[1..];
      assert SingleRuns(t) by {
        forall i | 0 <= i < |t| - 1 ensures !(IsSpace(t[i]) && IsSpace(t[i + 1])) {
          assert t[i] == s[i + 1] && t[i + 1] == s[i + 2];
        }
      }
      if IsSpace(s[0]) {
        assert |s| > 1 ==> !IsSpace(s[1]);
      }
      CollapseSingleRuns(t, IsSpace(s[0]));
      var head := if IsSpace(s[0]) then "-" else [s[0]];
      assert CollapseSpaces(s, inRun) == head + CollapseSpaces(t, IsSpace(s[0]));
      forall i | 0 <= i < |s| ensures CollapseSpaces(s, inRun)[i] == if IsSpace(s[i]) then '-' else s[i] {
        if i > 0 {
          assert s[i] == t[i - 1];
        }
      }
    }
  }

  /** A lone tab becomes a hyphen, as it does under `/\s+/g`. */
  lemma TabBecomesHyphen()
    ensures CollapseSpaces("a\tb", false) == "a-b"
  {
    var s := "a\tb";
    assert SingleRuns(s);
    CollapseSingleRuns(s, false);
  }

  /** A string in slug form: lowercase, no ampersand, no whitespace. */
  predicate IsSlug(s: string) {
    HasNoUpper(s) && '&' !in s && forall c :: c in s ==> !IsSpace(c)
  }

  /**
   * `formatProductType`: "" for a falsy label, otherwise lowercase it, delete
   * every `&` and turn each whitespace run into one `-`.
   */
  function FormatProductType(raw: Option<string>): (r: string)
    ensures !Truthy(raw) ==> r == ""
    ensures IsSlug(r)
  {
    if !Truthy(raw) then ""
    else
      var lowered := Lower(raw.value);
      LowerIdempotent(raw.value);
      CollapseSpaces(StripAmpersands(lowered), false)
  }

  lemma {:induction false} StripAmpersandsFree(s: string)
    requires '&' !in s
    ensures StripAmpersands(s) == s
  {
    if s != [] {
      StripAmpersandsFree(s[1..]);
    }
  }

  lemma {:induction false} CollapseSpaceFree(s: string, inRun: bool)
    requires forall c :: c in s ==> !IsSpace(c)
    ensures CollapseSpaces(s, inRun) == s
  {
    if s != [] {
      CollapseSpaceFree(s[1..], false);
    }
  }

  /** Normalising a slug changes nothing, so `formatProductType` is idempotent. */
  lemma FormatProductTypeIdempotent(raw: Option<string>)
    ensures FormatProductType(Some(FormatProductType(raw))) == FormatProductType(raw)
  {
    var r := FormatProductType(raw);
    if r != "" {
      LowerOfLowercase(r);
      StripAmpersandsFree(r);
      CollapseSpaceFree(r, false);
    }
  }

  /**
   * The length of a whitespace run does not matter: one more whitespace
   * character next to another one leaves the collapsed text unchanged.
   */
  lemma {:induction false} CollapseIgnoresRunLength(a: string, w: char, b: string, inRun: bool)
    requires IsSpace(w) && b != [] && IsSpace(b[0])
    ensures CollapseSpaces(a + [w] + b, inRun) == CollapseSpaces(a + b, inRun)
  {
    if a == [] {
      assert [w] + b == a + [w] + b;
      assert ([w] + b)[1..] == b;
      assert b == a + b;
    } else {
      assert (a + [w] + b)[0] == a[0] && (a + [w] + b)[1..] == a[1..] + [w] + b;
      assert (a + b)[0] == a[0] && (a + b)[1..] == a[1..] + b;
      CollapseIgnoresRunLength(a[1..], w, b, IsSpace(a[0]));
    }
  }

  lemma {:induction false} StripAmpersandsAppend(a: string, b: string)
    ensures StripAmpersands(a + b) == StripAmpersands(a) + StripAmpersands(b)
  {
    if a == [] {
      assert a + b == b;
    } else {
      assert (a + b)[0] == a[0] && (a + b)[1..] == a[1..] + b;
      StripAmpersandsAppend(a[1..], b);
    }
  }

  /**
   * Labels that differ only in the length of a whitespace run (after `&`
   * removal) share a slug: "Body  Care" and "Body Care" both give "body-care".
   */
  lemma FormatIgnoresRunLength(a: string, w: char, b: string)
    requires IsSpace(w) && b != [] && IsSpace(b[0])
    ensures FormatProductType(Some(a + [w] + b)) == FormatProductType(Some(a + b))
  {
    var la, lb := Lower(a), Lower(b);
    assert Lower(a + [w] + b) == la + [LowerChar(w)] + lb;
    assert Lower(a + b) == la + lb;
    StripAmpersandsAppend(la + [LowerChar(w)], lb);
    StripAmpersandsAppend(la, [LowerChar(w)]);
    StripAmpersandsAppend(la, lb);
    var sa, sb := StripAmpersands(la), StripAmpersands(lb);
    assert StripAmpersands([LowerChar(w)]) == [LowerChar(w)];
    assert sb == [LowerChar(b[0])] + StripAmpersands(lb[1..]);
    CollapseIgnoresRunLength(sa, LowerChar(w), sb, false);
    assert sa + [LowerChar(w)] + sb == sa + [LowerChar(w)] + sb;
  }

  /**
   * `filterProductsByType`: the whole list for a falsy criterion, otherwise
   * the products whose slug equals it, in order; a product without a
   * `productType` never matches a non-empty criterion.
   */
  function FilterProductsByType(products: seq<Product>, productType: string): (r: seq<Product>)
    ensures productType == "" ==> r == products
    ensures |r| <= |products|
    ensures forall i :: 0 <= i < |r| ==> r[i] in products
    ensures productType != "" ==> forall i :: 0 <= i < |r| ==> FormatProductType(r[i].productType) == productType
    ensures forall p :: p in products && FormatProductType(p.productType) == productType ==> p in r
    ensures productType != "" ==> forall p :: p in r ==> Truthy(p.productType)
  {
    if productType == "" then products
    else Filter(products, (p: Product) => FormatProductType(p.productType) == productType)
  }

  /** The product carries exactly the truthy raw label `raw`. */
  predicate HasLabel(p: Product, raw: string) {
    Truthy(p.productType) && p.productType.value == raw
  }

  /** Number of products whose raw `productType` is exactly `raw`. */
  function CountOf(products: seq<Product>, raw: string): nat {
    |Filter(products, (p: Product) => HasLabel(p, raw))|
  }

  /** The distinct truthy raw labels. */
  ghost function Labels(products: seq<Product>): set<string> {
    set p | p in products && Truthy(p.productType) :: p.productType.value
  }

  /** Number of products with a truthy `productType`. */
  function LabelledCount(products: seq<Product>): nat {
    |Filter(products, (p: Product) => Truthy(p.productType))|
  }

  lemma CountOfSnoc(products: seq<Product>, p: Product, raw: string)
    ensures CountOf(products + [p], raw) == CountOf(products, raw) + (if HasLabel(p, raw) then 1 else 0)
  {
    FilterAppend(products, [p], (q: Product) => HasLabel(q, raw));
  }

  lemma {:induction false} CountOfAbsent(products: seq<Product>, raw: string)
    requires raw !in Labels(products)
    ensures CountOf(products, raw) == 0
  {
    forall i | 0 <= i < |products|
      ensures HasLabel(products[i], raw) ==> raw in Labels(products)
    {
    }
    FilterNone(products, (p: Product) => HasLabel(p, raw));
  }

  lemma CountOfPresent(products: seq<Product>, raw: string)
    requires raw in Labels(products)
    ensures CountOf(products, raw) > 0
  {
    var p :| p in products && Truthy(p.productType) && p.productType.value == raw;
    var k :| 0 <= k < |products| && products[k] == p;
    assert p in Filter(products, (q: Product) => HasLabel(q, raw));
  }

  /**
   * `getProductTypeCounts`: one entry per distinct truthy raw label, holding
   * the number of products carrying exactly that label.
   */
  method GetProductTypeCounts(products: seq<Product>) returns (counts: map<string, nat>)
    ensures counts.Keys == Labels(products)
    ensures forall t :: t in counts ==> counts[t] == CountOf(products, t) && counts[t] > 0
    ensures "" !in counts
  {
    counts := map[];
    var i := 0;
    assert products[..0] == [];
    assert Labels([]) == {};
    while i < |products|
      invariant 0 <= i <= |products|
      invariant CountsOf(counts, products[..i])
    {
      var next := Tally(counts, products[i]);
      CountsStep(counts, products, i, next);
      counts := next;
      i := i + 1;
    }
    assert products[..i] == products;
    CountsPositive(counts, products);
  }

  /** The `reduce` callback: `acc[type] = (acc[type] || 0) + 1` for a labelled product. */
  method Tally(acc: map<string, nat>, p: Product) returns (next: map<string, nat>)
    ensures Truthy(p.productType) ==>
      var t := p.productType.value; next == acc[t := (if t in acc then acc[t] else 0) + 1]
    ensures !Truthy(p.productType) ==> next == acc
  {
    next := acc;
    if p.productType.Some? && p.productType.value != "" {
      var t := p.productType.value;
      next := next[t := (if t in next then next[t] else 0) + 1];
    }
  }

  lemma CountsPositive(counts: map<string, nat>, products: seq<Product>)
    requires CountsOf(counts, products)
    ensures counts.Keys == Labels(products)
    ensures forall t :: t in counts ==> counts[t] == CountOf(products, t) && counts[t] > 0
    ensures "" !in counts
  {
    forall t | t in counts
      ensures counts[t] > 0
    {
      CountOfPresent(products, t);
    }
  }

  /** `counts` holds exactly the per-label counts of `products`. */
  ghost predicate CountsOf(counts: map<string, nat>, products: seq<Product>) {
    counts.Keys == Labels(products) && forall t :: t in counts ==> counts[t] == CountOf(products, t)
  }

  /** One step of the counting fold: `acc[type] = (acc[type] || 0) + 1` for a labelled product. */
  lemma CountsStep(counts: map<string, nat>, products: seq<Product>, i: nat, next: map<string, nat>)
    requires i < |products|
    requires CountsOf(counts, products[..i])
    requires Truthy(products[i].productType) ==>
      var t := products[i].productType.value; next == counts[t := (if t in counts then counts[t] else 0) + 1]
    requires !Truthy(products[i].productType) ==> next == counts
    ensures CountsOf(next, products[..i + 1])
  {
    assert products[..i + 1] == products[..i] + [products[i]];
    CountsSnoc(counts, products[..i], products[i], next);
  }

  lemma CountsSnoc(counts: map<string, nat>, prefix: seq<Product>, p: Product, next: map<string, nat>)
    requires CountsOf(counts, prefix)
    requires Truthy(p.productType) ==>
      var t := p.productType.value; next == counts[t := (if t in counts then counts[t] else 0) + 1]
    requires !Truthy(p.productType) ==> next == counts
    ensures CountsOf(next, prefix + [p])
  {
    assert next.Keys == Labels(prefix + [p]) by {
      assert Labels(prefix + [p]) == Labels(prefix) + (if Truthy(p.productType) then {p.productType.value} else {});
    }
    if Truthy(p.productType) && p.productType.value !in counts {
      CountOfAbsent(prefix, p.productType.value);
    }
    forall t | t in next
      ensures next[t] == CountOf(prefix + [p], t)
    {
      CountOfSnoc(prefix, p, t);
    }
  }

  /** Sum of the per-label counts over a list of labels. */
  function SumCounts(products: seq<Product>, labels: seq<string>): nat {
    if labels == [] then 0 else CountOf(products, labels[0]) + SumCounts(products, labels[1..])
  }

  /** Number of positions of `labels` holding `t`. */
  function Occurrences(labels: seq<string>, t: string): nat {
    if labels == [] then 0 else (if labels[0] == t then 1 else 0) + Occurrences(labels[1..], t)
  }

  predicate Distinct(labels: seq<string>) {
    forall i, j :: 0 <= i < j < |labels| ==> labels[i] != labels[j]
  }

  lemma {:induction false} OccurrencesDistinct(labels: seq<string>, t: string)
    requires Distinct(labels)
    ensures Occurrences(labels, t) == if t in labels then 1 else 0
  {
    if labels != [] {
      OccurrencesDistinct(labels[1..], t);
      if labels[0] == t {
        assert t !in labels[1..] by {
          forall k | 0 <= k < |labels[1..]| ensures labels[1..][k] != t {
            assert labels[k + 1] != labels[0];
          }
        }
      }
    }
  }

  lemma {:induction false} SumCountsSnoc(products: seq<Product>, p: Product, labels: seq<string>)
    ensures SumCounts(products + [p], labels) ==
      SumCounts(products, labels) + (if Truthy(p.productType) then Occurrences(labels, p.productType.value) else 0)
  {
    if labels != [] {
      CountOfSnoc(products, p, labels[0]);
      SumCountsSnoc(products, p, labels[1..]);
    }
  }

  /**
   * Summed over any duplicate-free list covering every label, the counts add
   * up to the number of products that have a `productType`.
   */
  lemma {:induction false} CountsSumToLabelled(products: seq<Product>, labels: seq<string>)
    requires Distinct(labels)
    requires Labels(products) <= set t | t in labels
    ensures SumCounts(products, labels) == LabelledCount(products)
  {
    if products == [] {
      SumCountsEmpty(labels);
    } else {
      var init, p := products[..|products| - 1], products[|products| - 1];
      assert products == init + [p];
      assert Labels(init) <= Labels(products);
      CountsSumToLabelled(init, labels);
      SumCountsSnoc(init, p, labels);
      FilterAppend(init, [p], (q: Product) => Truthy(q.productType));
      if Truthy(p.productType) {
        assert p.productType.value in Labels(products);
        OccurrencesDistinct(labels, p.productType.value);
      }
    }
  }

  lemma {:induction false} SumCountsEmpty(labels: seq<string>)
    ensures SumCounts([], labels) == 0
  {
    if labels != [] {
      SumCountsEmpty(labels[1..]);
    }
  }
}
