# Storefront catalogue filtering, facets and admin state — a Dafny model

This project models the client-side core of a beauty storefront and its small
admin area:

- the two product-type slug normalisers: the shared `formatProductType`, and
  the inline slug the shop page computes for its filters;
- the shop page's state (price slider, sort select, current page), the
  maximum-price fold that seeds the slider, and the `filteredProducts`
  pipeline. The pipeline sorts a copy of the catalogue, and its "On Sale"
  option filters instead. It then keeps the products inside the price range
  that match the status, category, sub-category, product-type and brand
  parameters of the route query;
- the "Filter by Product Type" widget: per-label counts, the sorted facet
  list, the checked state, and the query toggle a click performs;
- the admin product list (search, category and featured filter; confirmed
  delete) and the add-product form (field edits, tags, images,
  additional-information rows, reset after saving);
- the admin authentication slice (four reducers), the validation and
  error-message mapping of admin creation, and the product API's
  post-processing: error serialisation, document flattening, the query plan
  for one product type, and the top-rated ranking.

Modules follow the program's files. `Wrappers`, `Text` and `Seqs` hold shared
helpers: `Option`, ASCII lower-casing, trimming and substring search, a
code-point string order, and list filtering and in-place sorting with their
lemmas. `Catalog` holds the product record.

Stateful pieces are classes whose methods update fields:
- `Shop.ShopPage`;
- `AdminList.ProductList`;
- `AddProduct.AddProductForm`;
- `AuthSlice.AuthState`.

The sorts (`Seqs.SortBy`) work in place on an array copy. The reduce-based
count (`ProductFilters.GetProductTypeCounts`) is a loop that updates a map.

Services and the environment appear as parameters:
- the answers of the authentication service, the document store and the
  image host;
- `window.confirm`;
- the development-mode flag;
- the timestamp-to-ISO conversion.

The brand filter compares the slug of `brand.name`. A brand given as a bare
string has no `name`, so a set brand filter drops that product.

## Model

| member | source | states |
|---|---|---|
| ProductFilters.FormatProductType | src/utils/productFilters.js:6-13 | a falsy label gives ""; every result is lowercase and has no `&` and no whitespace |
| ProductFilters.StripAmpersands | src/utils/productFilters.js:11 | the result has no `&`, is no longer than the input and uses only its characters |
| ProductFilters.CollapseSpaces | src/utils/productFilters.js:12 | the result has no whitespace; every character is `-` or comes from the input; it is no longer than the input |
| ProductFilters.FormatProductTypeIdempotent | src/utils/productFilters.js:8-12 | formatting a slug again returns it unchanged |
| ProductFilters.FormatIgnoresRunLength | src/utils/productFilters.js:11-12 | lengthening a whitespace run does not change the slug ("Body  Care" and "Body Care" agree) |
| ProductFilters.CollapseIgnoresRunLength | src/utils/productFilters.js:12 | one extra whitespace character inside a run does not change the collapsed text |
| ProductFilters.CollapseSingleRuns | src/utils/productFilters.js:12 | on text with no two whitespace characters in a row, each whitespace character of any kind becomes `-` and every other character stays in place |
| ProductFilters.TabBecomesHyphen | src/utils/productFilters.js:12 | "a\tb" collapses to "a-b" |
| ProductFilters.StripAmpersandsFree | src/utils/productFilters.js:11 | ampersand removal leaves ampersand-free text unchanged |
| ProductFilters.StripAmpersandsAppend | src/utils/productFilters.js:11 | ampersand removal distributes over concatenation |
| ProductFilters.FilterProductsByType | src/utils/productFilters.js:21-28 | "" returns the list unchanged; otherwise the result keeps exactly the products whose slug equals the criterion, and none without a product type |
| ProductFilters.GetProductTypeCounts | src/utils/productFilters.js:35-42 | the keys are exactly the distinct truthy raw labels; each value is the number of products with that exact label and is positive |
| ProductFilters.Tally | src/utils/productFilters.js:37-40 | a labelled product adds one to its label's entry (creating it at 1); other products change nothing |
| ProductFilters.CountsStep | src/utils/productFilters.js:36-41 | one reduce step keeps the accumulator equal to the counts of the prefix read so far |
| ProductFilters.CountsSnoc | src/utils/productFilters.js:36-41 | counting one more product increments its label's count, adds the label when it is new, and leaves the map unchanged for a product without a type |
| ProductFilters.CountsPositive | src/utils/productFilters.js:35-42 | every entry of a complete count map is positive, and "" is never a key |
| ProductFilters.CountOfSnoc | src/utils/productFilters.js:39 | appending a product raises exactly its own label's count by one |
| ProductFilters.CountOfAbsent | src/utils/productFilters.js:37 | a label no product carries has count 0 |
| ProductFilters.CountOfPresent | src/utils/productFilters.js:37-39 | a label some product carries has a positive count |
| ProductFilters.CountsSumToLabelled | src/utils/productFilters.js:35-42 | summed over any duplicate-free list covering all labels, the counts equal the number of products that have a product type |
| ProductFilters.SumCountsSnoc | src/utils/productFilters.js:36-41 | appending a product raises the sum by the number of times its label is listed |
| ProductFilters.OccurrencesDistinct | src/utils/productFilters.js:38-39 | in a duplicate-free label list each label occurs at most once |
| ProductFilters.SumCountsEmpty | src/utils/productFilters.js:35-36 | the counts of an empty catalogue sum to 0 |
| Shop.InlineSlug | src/pages/shop.jsx:110-114 | the inline slug has no space and no uppercase letter, and is exactly one character shorter when the text contains `&` |
| Shop.InlineSlugPerCharacter | src/pages/shop.jsx:110-114 | without `&`, each character is lowered in place and each space becomes `-`, so other whitespace survives |
| Shop.InlineSlugSplits | src/pages/shop.jsx:110-114 | with `&`, only the first is dropped: the slug of `a + "&" + b` is the slug of `a` followed by `b` lowered with spaces to `-`, so a second `&` survives |
| Shop.RemoveFirstAmpersand | src/pages/shop.jsx:112 | one character shorter when an `&` is present, unchanged otherwise, no new characters |
| Shop.RemoveFirstAmpersandSplits | src/pages/shop.jsx:112 | the `&` removed is the first one: `a + "&" + b` with no `&` in `a` becomes `a + b`, the rest kept in order |
| Shop.RemoveFirstAt | src/pages/shop.jsx:112 | removing the first `&` of a string at index k leaves the text before k followed by the text after k |
| Shop.SpacesToHyphens | src/pages/shop.jsx:113-114 | same length; each space becomes `-` in place; every other character is kept in place |
| Shop.InlineSlugAgrees | src/pages/shop.jsx:110-114 | on labels without `&` whose only whitespace is single spaces, the inline slug equals `formatProductType` |
| Shop.CollapseIsSplitJoin | src/pages/shop.jsx:113-114 | on single-spaced text, collapsing whitespace runs is the same as mapping each space to `-` |
| Shop.MaxPriceFrom | src/pages/shop.jsx:27-29 | the fold's result is at least its start value and every price, and equals the start value or some price |
| Shop.MaxPrice | src/pages/shop.jsx:27-29 | the initial upper bound is never negative |
| Shop.InitialBoundsKeepEverything | src/pages/shop.jsx:26-30 | with the slider at `[0, max price]`, no query criteria and non-negative prices, the filter stages keep every product |
| Shop.ShopPage.constructor | src/pages/shop.jsx:17-19 | the slider starts at `[0, 0]`, the select at "" and the page at 1 |
| Shop.ShopPage.LoadMaxPrice | src/pages/shop.jsx:25-32 | once loaded without error and non-empty, the slider becomes `[0, max price]`; otherwise it is unchanged; nothing else changes |
| Shop.ShopPage.HandleChanges | src/pages/shop.jsx:35-38 | a slider move resets the page to 1 and stores the bounds |
| Shop.ShopPage.SelectHandleFilter | src/pages/shop.jsx:41-43 | stores the select value; nothing else changes |
| Shop.ShopPage.SetCurrPage | src/pages/shop.jsx:19 | stores the page; nothing else changes |
| Shop.ShopPage.FilteredProducts | src/pages/shop.jsx:57-138 | no data gives []; otherwise the result is exactly the products of the sorted (or on-sale) copy that pass every stage, in that order. Each sort option yields non-decreasing price, non-increasing price or non-increasing creation time, and the result is a permutation of the filtered input. "On Sale" keeps only discounted products |
| Shop.StagesOutcome | src/pages/shop.jsx:60-128 | the filtered sort-stage list is, as a multiset, the kept products of the on-sale view; every product passes all filters; "On Sale" leaves only discounted products and each sort option its order |
| Shop.SortStageOf | src/pages/shop.jsx:60-73 | the three sort options give a sorted permutation of the copy; "On Sale" gives the discounted products in order; any other value leaves the copy as it is |
| Shop.FilterStages | src/pages/shop.jsx:75-128 | the stages together keep exactly the products satisfying the inclusive price range and every set criterion, in order |
| Shop.PriceStage | src/pages/shop.jsx:75-78 | the price stage keeps the products whose price lies in the inclusive range, in order |
| Shop.NoStages | src/pages/shop.jsx:59-76 | before any filter the list is the sorted copy itself |
| Shop.AfterAllStages | src/pages/shop.jsx:75-128 | after the six stages the list is the sorted copy filtered by the whole conjunction |
| Shop.StatusStage | src/pages/shop.jsx:81-87 | "on-sale" keeps discounted products, "in-stock" keeps in-stock ones, any other value keeps all |
| Shop.SlugStage | src/pages/shop.jsx:90-105 | a set category or sub-category keeps the products whose parent or children slug equals it |
| Shop.ProductTypeStage | src/pages/shop.jsx:108-117 | a set product type keeps the products that have a type whose inline slug equals it |
| Shop.BrandStage | src/pages/shop.jsx:120-126 | a set brand keeps the products whose brand record has a name whose inline slug equals it |
| Shop.Narrow | src/pages/shop.jsx:76-126 | one stage's filter equals filtering the sorted list by all stages so far |
| Shop.Skip | src/pages/shop.jsx:81-126 | an unset parameter's stage changes nothing |
| Shop.AllStagesAreKeep | src/pages/shop.jsx:75-126 | the six stages in order are the conjunction the pipeline keeps |
| ProductTypeFilter.Toggled | src/components/shop/shop-filter/color-filter.jsx:31-39 | `page` is removed, every other key except `productType` is kept; `productType` is deleted if it already held the slug, and set to the slug otherwise |
| ProductTypeFilter.IsActive | src/components/shop/shop-filter/color-filter.jsx:86 | an active facet's slug is the query's `productType`; for a non-empty slug that equality is also enough; with no `productType` no facet is active |
| ProductTypeFilter.ToggleFlipsActive | src/components/shop/shop-filter/color-filter.jsx:35-39 | after a click the clicked facet is checked exactly when it was not before |
| ProductTypeFilter.ToggleTwiceClears | src/components/shop/shop-filter/color-filter.jsx:35-39 | two clicks on one facet from a query without `productType` leave it absent and keep the other keys |
| ProductTypeFilter.HandleProductType | src/components/shop/shop-filter/color-filter.jsx:26-39 | the shop page goes back to page 1 and the new query is the toggled one |
| ProductTypeFilter.InsertSorted | src/components/shop/shop-filter/color-filter.jsx:80-82 | inserting a new label into an ascending list keeps it ascending and adds exactly that label |
| ProductTypeFilter.SortedProductTypes | src/components/shop/shop-filter/color-filter.jsx:80-82 | the label list holds each counted label exactly once, in strictly ascending order |
| ProductTypeFilter.AscendingIsDistinct | src/components/shop/shop-filter/color-filter.jsx:80-82 | a strictly ascending label list has no repeats |
| ProductTypeFilter.ProductTypeFacets | src/components/shop/shop-filter/color-filter.jsx:59-111 | loader, error and "no products" come in that order. Otherwise there is one facet per distinct labelled type, ascending, with its exact count (positive) and a checked state equal to the query matching its slug |
| ProductTypeFilter.TotalIsSumCounts | src/components/shop/shop-filter/color-filter.jsx:105-107 | the displayed counts add up to the per-label counts of the listed labels |
| ProductTypeFilter.FacetCountsSum | src/components/shop/shop-filter/color-filter.jsx:71-82 | the displayed counts add up to the number of products that have a product type |
| ProductTypeFilter.SharedSlugChecksBoth | src/components/shop/shop-filter/color-filter.jsx:85-86 | two raw labels that differ only in a whitespace run share a slug, so when one facet is checked the other is too |
| ProductTypeFilter.BodyAndCareSlugsDiffer | src/pages/shop.jsx:110-114 | for "Body & Care" the shared slug has at most 9 characters and the inline slug has 10 |
| ProductTypeFilter.BodyAndCareDropped | src/pages/shop.jsx:108-117 | a "Body & Care" product fails the product-type stage when the query holds the shared slug of its own label |
| ProductTypeFilter.StripOneAmpersand | src/utils/productFilters.js:11 | removing ampersands from `a & b` joins `a` and `b` when they have none |
| ProductTypeFilter.AmpersandFacetShowsNothing | src/pages/shop.jsx:108-117 | a "Body & Care" product is counted once under its facet, and clicking the facet checks it, yet the shop's product-type stage drops the product |
| ProductTypeFilter.SelectedFacetKeepsItsProducts | src/utils/productFilters.js:21-28 | filtering by a facet's own slug keeps every product counted under it, so at least the facet's count |
| AdminList.ProductList.constructor | src/pages/crud/index.jsx:10-25 | the list starts with the eight sample rows, an empty search, category "All" and featured-only off |
| AdminList.ProductList.FilteredProducts | src/pages/crud/index.jsx:28-33 | a row is shown exactly when its lowercased name contains the lowercased term, the category is "All" or equal, and it is featured or featured-only is off |
| AdminList.ProductList.SetSearchTerm | src/pages/crud/index.jsx:23 | stores the search term; nothing else changes |
| AdminList.ProductList.SetFilterCategory | src/pages/crud/index.jsx:24 | stores the category; nothing else changes |
| AdminList.ProductList.SetShowFeaturedOnly | src/pages/crud/index.jsx:25 | stores the featured-only switch; nothing else changes |
| AdminList.WithoutId | src/pages/crud/index.jsx:38 | the rows kept are exactly those with a different id |
| AdminList.ProductList.HandleDelete | src/pages/crud/index.jsx:36-40 | a confirmed delete removes exactly the rows with that id, in order; a declined one changes nothing |
| AdminList.DeleteIdempotent | src/pages/crud/index.jsx:38 | deleting an id a second time changes nothing |
| AdminList.DeleteAbsent | src/pages/crud/index.jsx:38 | deleting an id no row has changes nothing |
| AdminList.DefaultControlsShowAll | src/pages/crud/index.jsx:23-33 | with the initial controls every row is shown |
| AdminList.SearchIgnoresCase | src/pages/crud/index.jsx:29 | searching for a term or its lowercase form selects the same rows |
| AddProduct.Changed | src/pages/crud/add.jsx:35-41 | the named field becomes `checked` for a checkbox and `value` otherwise; every other field is unchanged |
| AddProduct.WithTag | src/pages/crud/add.jsx:96-101 | the existing tags stay first; the trimmed tag is added exactly when it is non-empty and new; well-formed tags stay well formed |
| AddProduct.AppendNewTag | src/pages/crud/add.jsx:96-100 | an already trimmed tag is appended after the existing tags exactly when it is non-empty and not yet present; well-formed tags stay well formed |
| AddProduct.WithTagIdempotent | src/pages/crud/add.jsx:97 | adding the same tag twice equals adding it once |
| AddProduct.BlankTagIgnored | src/pages/crud/add.jsx:97 | a tag made only of whitespace is never added |
| AddProduct.BlankTrimsToEmpty | src/pages/crud/add.jsx:97 | trimming whitespace-only text gives "" |
| AddProduct.RemoveTagKeepsWellFormed | src/pages/crud/add.jsx:106-111 | removing a tag by position keeps the tags non-empty, trimmed and without repeats |
| AddProduct.WithRowField | src/pages/crud/add.jsx:83-87 | only the chosen half of the chosen row changes |
| AddProduct.AddProductForm.constructor | src/pages/crud/add.jsx:16-33 | the form starts from the empty draft (status "in-stock", one empty row), an empty tag input, and no upload running |
| AddProduct.AddProductForm.HandleChange | src/pages/crud/add.jsx:35-41 | only the named scalar field changes; the lists and the tag input are untouched |
| AddProduct.AddProductForm.SetNewTag | src/pages/crud/add.jsx:273 | stores the tag input; the draft is untouched |
| AddProduct.AddProductForm.HandleImageUpload | src/pages/crud/add.jsx:45-74 | without a file nothing changes; otherwise a successful upload appends its URL at the end, a failed one changes no image, and the loader is off afterwards |
| AddProduct.AddProductForm.HandleRemoveImage | src/pages/crud/add.jsx:76-81 | exactly the image at the index is removed, the others keep their order; an out-of-range index changes nothing |
| AddProduct.AddProductForm.HandleAdditionalInfoChange | src/pages/crud/add.jsx:83-87 | only the chosen half of the chosen row changes |
| AddProduct.AddProductForm.HandleAddAdditionalInfo | src/pages/crud/add.jsx:89-94 | one empty row is appended; existing rows are untouched |
| AddProduct.AddProductForm.HandleRemoveAdditionalInfo | src/pages/crud/add.jsx:347-354 | exactly the row at the index is removed; an out-of-range index changes nothing |
| AddProduct.AddProductForm.HandleAddTag | src/pages/crud/add.jsx:96-104 | the tags become the tag-added list; the input is cleared exactly when the tag was taken; tags stay well formed |
| AddProduct.AddProductForm.HandleRemoveTag | src/pages/crud/add.jsx:106-111 | exactly the tag at the index is removed, keeping the tags well formed |
| AddProduct.AddProductForm.HandleSubmit | src/pages/crud/add.jsx:113-137 | after a successful save the draft is the initial one; after a failed save it is unchanged |
| AuthSlice.AuthState.constructor | src/redux/features/auth/authSlice.js:4-9 | no token, no admin, not loading, no error |
| AuthSlice.AuthState.LogIn | src/redux/features/auth/authSlice.js:15-20 | stores the payload's token and admin, not loading, no error |
| AuthSlice.AuthState.LogOut | src/redux/features/auth/authSlice.js:21-27 | no token, no admin, not loading, no error, whatever the state before, so logging out twice equals once |
| AuthSlice.AuthState.Start | src/redux/features/auth/authSlice.js:28-31 | loading, no error, session kept |
| AuthSlice.AuthState.Fail | src/redux/features/auth/authSlice.js:32-35 | not loading, the payload as error, session kept |
| AuthSlice.AuthState.Dispatch | src/redux/features/auth/authSlice.js:11-37 | loading is true exactly after `authStart`; each action sets its fields and keeps the session where its reducer does |
| CreateAdmin.Validate | src/redux/features/auth/create.js:8-15 | valid exactly when the email is non-empty with `@` and the password is at least 6 UTF-16 code units long; a bad email is reported before a bad password |
| CreateAdmin.EmailOk | src/redux/features/auth/create.js:8 | accepted exactly when an email is given and contains `@` |
| CreateAdmin.PasswordOk | src/redux/features/auth/create.js:13 | six characters always suffice; fewer than three never do, since `length` counts UTF-16 code units |
| CreateAdmin.Utf16Length | src/redux/features/auth/create.js:13 | `length` lies between the number of characters and twice that |
| CreateAdmin.BasicPlanePasswords | src/redux/features/auth/create.js:13 | for basic-plane text the check is exactly "at least six characters" |
| CreateAdmin.ThreeAstralCharactersAreLongEnough | src/redux/features/auth/create.js:13 | three emoji are six code units, so they pass the check |
| CreateAdmin.ErrorMessage | src/redux/features/auth/create.js:44-60 | the four known codes map to their fixed messages; any other code, or none, passes the error's message through |
| CreateAdmin.KnownMessagesDistinct | src/redux/features/auth/create.js:45-57 | different known codes give different messages |
| CreateAdmin.RoleOrDefault | src/redux/features/auth/create.js:5 | the role defaults to "admin" when none is passed |
| CreateAdmin.AdminDocument | src/redux/features/auth/create.js:25-31 | the stored record carries the email, the name, the defaulted role, and the two clock readings as its two stamps |
| CreateAdmin.CreateAdmin | src/redux/features/auth/create.js:5-67 | invalid input fails with the validation message and no code before any service is asked. Success happens exactly when both services succeed and reports the new account. Otherwise the first failing service's code decides the message |
| CreateAdmin.FailuresHaveMessages | src/redux/features/auth/create.js:62-66 | every failure carries a non-empty message when the services' messages are non-empty |
| ProductApi.SerializeError | src/redux/features/productApi.js:6-14 | nothing exactly for a missing error; otherwise the name defaults to "Error", the message to "Unknown error", an empty code becomes absent, and the stack appears only in development |
| ProductApi.SerializeErrorIdempotent | src/redux/features/productApi.js:6-14 | serialising a serialised error returns it unchanged |
| ProductApi.ConvertValue | src/redux/features/productApi.js:22-32 | a timestamp becomes its ISO text, a value with a truthy `path` becomes the path, anything else is kept |
| ProductApi.SerializeFirestoreDoc | src/redux/features/productApi.js:17-35 | the keys are the data keys plus `id`; every data value is converted; `id` is the document id unless the data has its own `id`, which wins |
| ProductApi.PlainDocumentKeepsData | src/redux/features/productApi.js:17-35 | a document without timestamps or paths comes back as its data with the id added |
| ProductApi.ProductTypeQuery | src/redux/features/productApi.js:85-96 | `new` (`createdAt` descending, limit 8) wins over `featured` (featured only), which wins over `topSellers` (`sellCount` descending, limit 8); with none set only the type constraint remains |
| ProductApi.NewOverridesOthers | src/redux/features/productApi.js:90-96 | with `new` set, changing any other parameter does not change the plan |
| ProductApi.PlanShapes | src/redux/features/productApi.js:90-96 | a plan orders exactly when it limits, the limit is always 8, the featured filter never comes with a limit, and every order is descending |
| ProductApi.AverageWithin | src/redux/features/productApi.js:173-177 | the average rating lies within the range of the review ratings |
| ProductApi.SumRatingsWithin | src/redux/features/productApi.js:173-176 | the rating sum lies between the count times the lowest and the count times the highest rating |
| ProductApi.WithRatings | src/redux/features/productApi.js:171-182 | each product keeps its place and carries the mean of its review ratings |
| ProductApi.SumRatings | src/redux/features/productApi.js:173-176 | the fold over one review is its rating |
| ProductApi.Average | src/redux/features/productApi.js:177 | one review gives its rating; equal ratings give that rating |
| ProductApi.SortedByRating | src/redux/features/productApi.js:186 | a permutation of the rated products, highest rating first |
| ProductApi.TopRated | src/redux/features/productApi.js:171-186 | at most eight products (all of them if fewer), non-increasing in rating, drawn from the rated input; any product left out rates no higher than every product kept |
| ProductApi.TopPrefix | src/redux/features/productApi.js:186 | the first k of a list sorted highest-first are a best-rated selection of the whole list |
| Seqs.SortBy | src/pages/shop.jsx:65-69 | the array ends sorted by the key and is a permutation of its old contents |
| Seqs.Filter | src/pages/shop.jsx:76-78 | no longer than the input; every kept element is an input element that passes the test, and every passing input element is kept |
| Seqs.FilterAppend | src/pages/shop.jsx:76-78 | filtering a concatenation filters each part in turn, so the kept elements stay in input order |
| Seqs.FilterMultiplicity | src/pages/shop.jsx:76-78 | each passing element is kept as often as it occurs, and no failing one is kept |
| Seqs.FilterSorted | src/pages/shop.jsx:76-126 | filtering a list sorted by a key keeps it sorted |
| Seqs.FilterPermutation | src/pages/shop.jsx:76-126 | filtering two permutations of each other gives permutations of each other |
| Seqs.FilterThen | src/pages/shop.jsx:76-126 | filtering twice equals filtering once by the conjunction |
| Seqs.RemoveAt | src/pages/crud/add.jsx:79 | an in-range index removes exactly that element and shifts the rest; an out-of-range one changes nothing |
| Text.Lower | src/pages/crud/index.jsx:29 | same length; every ASCII capital becomes lowercase, everything else is kept |
| Text.Trim | src/pages/crud/add.jsx:97 | the result has no leading or trailing whitespace and is a slice of the input outside which everything is whitespace |
| Text.TrimStart | src/pages/crud/add.jsx:97 | a suffix of the input that starts with a non-space; everything dropped is whitespace |
| Text.TrimEnd | src/pages/crud/add.jsx:97 | a prefix of the input that ends with a non-space; everything dropped is whitespace |
| Text.Contains | src/pages/crud/index.jsx:29 | a contained text is no longer than the text; for one character, containment is membership |
| Text.Less | src/components/shop/shop-filter/color-filter.jsx:80-82 | no text precedes itself, and a proper prefix precedes the longer text |
| Text.TrimIdempotent | src/pages/crud/add.jsx:97 | trimming twice equals trimming once |
| Text.LessTotal | src/components/shop/shop-filter/color-filter.jsx:80-82 | any two different labels are ordered one way or the other |
| Text.LessTransitive | src/components/shop/shop-filter/color-filter.jsx:80-82 | the label order is transitive |

## Left out

- Rendering and side effects: all JSX, `router.push`, the sidebar-closing `dispatch`, `Cookies.remove`, `alert` and `console`. Only the values these calls receive are modelled.
- Remote services: the authentication service, the document store and the image host are not called. Their answers are parameters (`AuthOutcome`, `StoreOutcome`, `UploadResponse`), and `window.confirm` is a boolean parameter.
- Query execution: `getAllProducts`, `getMostDiscountedProducts`, `getOfferProducts`, `getPopularProductByType`, `getProduct` and `getRelatedProducts` only run store queries. Only the plan of `getProductType` and the post-processing of the results are modelled.
- Shop.ShopPage.FilteredProducts: the JavaScript sort is stable, but the model only promises key order and a permutation, so the relative order of equally priced (or equally dated) products is not captured.
- Seqs.SortBy: the insertion sort moves an element only past strictly greater keys, so it is stable, but stability is not stated in its contract.
- Shop.SortStageOf: the order among products with equal sort keys, which the stable JavaScript sort keeps from the input, is not stated.
- ProductApi.TopRated: which of several equally rated products make the top eight follows the stable sort in the source; the contract only promises that every product left out rates no higher than every product kept.
- ProductApi.SortedByRating: stability among equal ratings is not stated, as for `Seqs.SortBy`.
- Router query values are single strings (`map<string, string>`). A parameter repeated in the URL, which the router delivers as an array of strings, is not modelled.
- ProductTypeFilter.SortedProductTypes: `localeCompare` is replaced by code-point order (`Text.Less`), a fixed total order. Locale collation is not modelled.
- Text.Lower: lower-cases ASCII letters only. `Text.IsSpace` covers ASCII whitespace only, not the Unicode whitespace of `\s` and `trim`.
- Prices, discounts and creation times are integers (admin prices are reals). `Number(...)` conversion, `new Date(...)` parsing and NaN are not modelled.
- ProductFilters.GetProductTypeCounts: the count map is a plain map. The source's accumulator `{}` inherits `Object.prototype`, so a label that names an inherited property counts differently there. For "constructor", `acc["constructor"] || 0` is the inherited function, and the count becomes a string. An assignment to "__proto__" is ignored, and no such key appears. The model counts such labels like any other, and so does `ProductTypeFilter.ProductTypeFacets`, which shows those counts.
- ProductTypeFilter.ProductTypeFacets: its counts come from the same reduce, so labels naming inherited object properties ("constructor", "__proto__") are shown with exact counts that the source would not show.
- ProductApi.Average: ratings, their sum and their mean are exact reals. The source adds and divides IEEE doubles. The bound (`AverageWithin`) and equal-ratings facts hold for exact reals. For doubles both facts still hold whenever every partial sum is exact (for example integer ratings): the quotient is then rounded once, and rounding is monotone, so it stays within the range of the ratings and equals `v` when all ratings are `v`. Rounding of the sum can push the mean outside the range: with ratings `[0.1, 0.1, 0.1]` the double sum is 0.30000000000000004 and the source's mean is 0.10000000000000002. The same applies to `ProductApi.WithRatings` and `ProductApi.TopRated`, whose ratings are these means.
- ProductApi.AverageWithin: proved for exact reals. Under double rounding a mean can fall just outside the range of the ratings (`[0.1, 0.1, 0.1]`).
- ProductApi.WithRatings: carries the exact real mean where the source carries the rounded double quotient.
- ProductApi.TopRated: requires every product to have at least one review, which the store query (`reviews != []`) guarantees. An empty list would give NaN.
- ProductApi.ConvertValue: the timestamp's ISO text comes from a parameter `iso`. Object key order of the serialised document is not modelled (a map).
- AddProduct.AddProductForm.HandleImageUpload: a host response without `secure_url` would append `undefined`; the model's success case always carries a URL. The transient `uploading = true` state during the request is set and cleared inside one call.
- AddProduct.AddProductForm.HandleAdditionalInfoChange: the source writes into the row object shared with the previous state; the model replaces the row, so that aliasing is not captured.
- AddProduct.AddProductForm.HandleChange: requires the input name not to be one of the list fields, because the form binds it only to scalar inputs.
- Shop.ShopPage.FilteredProducts: a product without `parent` or `children` text would raise an error in the source; those fields are plain strings in the model.
- CreateAdmin.CreateAdmin: the service calls and logging happen outside the model. The two clock readings are parameters of `AdminDocument`, so their values are not modelled.
- The async authentication API (listener and cookies), the category API, the login form and the presentation-only components are not part of this model.

## Findings

| source | as written | input that shows it | evidently intended | confidence | as-written member | corrected member |
|---|---|---|---|---|---|---|
| src/pages/shop.jsx:108-117 | the product-type stage compares the inline slug (first `&` removed, each single space to `-`) with the query value, which the facet sets with `formatProductType` (every `&` removed, whitespace runs to one `-`) | a product with type "Body & Care": its facet shows count 1, and clicking it sets `productType=body-care`, but the inline slug is "body--care", so the grid is empty | filter with `formatProductType`, as `filterProductsByType` does, so a selected facet shows the products it counts | not executed; follows from the two definitions | ProductTypeFilter.AmpersandFacetShowsNothing | ProductTypeFilter.SelectedFacetKeepsItsProducts |
