/**
 * The admin product list: the search / category / featured filter over the
 * list held in page state, and the confirmed delete.
 */
module AdminList {
  import opened Text
  import opened Seqs

  /** A row of the admin table. */
  datatype AdminProduct = AdminProduct(id: int, name: string, category: string, price: real, stock: int, featured: bool)

  /** The sample rows the page starts from. */
  const InitialProducts: seq<AdminProduct> := [
    AdminProduct(1, "Matte Lipstick", "Lips", 19.99, 45, true),
    AdminProduct(2, "Foundation SPF 15", "Face", 34.99, 28, false),
    AdminProduct(3, "Volumizing Mascara", "Eyes", 24.99, 60, true),
    AdminProduct(4, "Eyeshadow Palette", "Eyes", 42.99, 15, true),
    AdminProduct(5, "Blush Duo", "Face", 29.99, 32, false),
    AdminProduct(6, "Highlighter", "Face", 27.99, 40, true),
    AdminProduct(7, "Lip Gloss", "Lips", 17.99, 55, false),
    AdminProduct(8, "Setting Spray", "Face", 22.99, 38, true)
  ]

  /** Case-insensitive substring search on the name. */
  predicate MatchesSearch(p: AdminProduct, term: string) {
    Contains(Lower(p.name), Lower(term))
  }

  /** "All" admits every category; anything else must match exactly. */
  predicate MatchesCategory(p: AdminProduct, category: string) {
    category == "All" || p.category == category
  }

  predicate MatchesFeatured(p: AdminProduct, featuredOnly: bool) {
    !featuredOnly || p.featured
  }

  predicate Shown(p: AdminProduct, term: string, category: string, featuredOnly: bool) {
    MatchesSearch(p, term) && MatchesCategory(p, category) && MatchesFeatured(p, featuredOnly)
  }

  /** The list after deleting every row with `id`, in order. */
  function WithoutId(products: seq<AdminProduct>, id: int): (r: seq<AdminProduct>)
    ensures forall p :: p in r <==> p in products && p.id != id
    ensures |r| <= |products|
  {
    Filter(products, (p: AdminProduct) => p.id != id)
  }

  /** Deleting an id a second time changes nothing. */
  lemma DeleteIdempotent(products: seq<AdminProduct>, id: int)
    ensures WithoutId(WithoutId(products, id), id) == WithoutId(products, id)
  {
    FilterKeepsAll(WithoutId(products, id), (p: AdminProduct) => p.id != id);
  }

  /** Deleting an id absent from the list leaves it as it was. */
  lemma DeleteAbsent(products: seq<AdminProduct>, id: int)
    requires forall p :: p in products ==> p.id != id
    ensures WithoutId(products, id) == products
  {
    FilterKeepsAll(products, (p: AdminProduct) => p.id != id);
  }

  /** The page state: the product list and the three filter controls. */
  class ProductList {
    var products: seq<AdminProduct>
    var searchTerm: string
    var filterCategory: string
    var showFeaturedOnly: bool

    constructor ()
      ensures products == InitialProducts
      ensures searchTerm == "" && filterCategory == "All" && !showFeaturedOnly
    {
      products := InitialProducts;
      searchTerm := "";
      filterCategory := "All";
      showFeaturedOnly := false;
    }

    /** `filteredProducts`: the rows passing all three controls, in list order. */
    function FilteredProducts(): (r: seq<AdminProduct>)
      reads this
      ensures forall p :: p in r <==> p in products && Shown(p, searchTerm, filterCategory, showFeaturedOnly)
      ensures |r| <= |products|
    {
      var term, category, featuredOnly := searchTerm, filterCategory, showFeaturedOnly;
      Filter(products, (p: AdminProduct) => Shown(p, term, category, featuredOnly))
    }

    method SetSearchTerm(term: string)
      modifies this
      ensures searchTerm == term
      ensures products == old(products) && filterCategory == old(filterCategory) && showFeaturedOnly == old(showFeaturedOnly)
    {
      searchTerm := term;
    }

    method SetFilterCategory(category: string)
      modifies this
      ensures filterCategory == category
      ensures products == old(products) && searchTerm == old(searchTerm) && showFeaturedOnly == old(showFeaturedOnly)
    {
      filterCategory := category;
    }

    method SetShowFeaturedOnly(featuredOnly: bool)
      modifies this
      ensures showFeaturedOnly == featuredOnly
      ensures products == old(products) && searchTerm == old(searchTerm) && filterCategory == old(filterCategory)
    {
      showFeaturedOnly := featuredOnly;
    }

    /** `handleDelete`: only a confirmed delete replaces the list. */
    method HandleDelete(id: int, confirmed: bool)
      modifies this
      ensures confirmed ==> products == WithoutId(old(products), id)
      ensures !confirmed ==> products == old(products)
      ensures searchTerm == old(searchTerm) && filterCategory == old(filterCategory)
      ensures showFeaturedOnly == old(showFeaturedOnly)
    {
      if confirmed {
        products := Filter(products, (p: AdminProduct) => p.id != id);
      }
    }
  }

  /** With the initial controls every row is shown. */
  lemma DefaultControlsShowAll(products: seq<AdminProduct>)
    ensures Filter(products, (p: AdminProduct) => Shown(p, "", "All", false)) == products
  {
    forall p | p in products ensures Shown(p, "", "All", false) {
      ContainsEmpty(Lower(p.name));
    }
    FilterKeepsAll(products, (p: AdminProduct) => Shown(p, "", "All", false));
  }

  /** Searching for a term or for its lowercase form selects the same rows. */
  lemma SearchIgnoresCase(p: AdminProduct, term: string)
    ensures MatchesSearch(p, term) <==> MatchesSearch(p, Lower(term))
  {
    LowerIdempotent(term);
  }
}
