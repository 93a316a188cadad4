/** The product grid's query pipeline (`ProductGridWrapper`): drop malformed
    records, keep the titles that contain the search text, keep the exact
    category, record the count, sort a copy, and cut the window that is shown.
    The component's state and the two shop-store counters are a class. */
module ProductQuery {
  import opened Text
  import opened Arrays
  import StableSort

  /** A record as it comes back from `GET /products`. `NullRecord` is a `null`
      entry of the array; a field that is `null` or absent is `None`. */
  datatype Record =
    | NullRecord
    | Record(
        id: Option<string>, title: Option<string>, category: Option<string>,
        image: Option<string>, price: Option<real>, popularity: Option<real>,
        stock: Option<real>)

  /** `isValidProduct`: the record is there, its id is truthy, and its title
      and category are not null. */
  predicate IsValidProduct(r: Record)
  {
    r.Record? && Truthy(r.id) && r.title.Some? && r.category.Some?
  }

  /** `safeToString`: `""` for null or undefined, the lower-cased text otherwise. */
  function SafeToString(v: Option<string>): string
  {
    if v.None? then "" else Lower(v.value)
  }

  function TitleOf(r: Record): Option<string> { if r.Record? then r.title else None }

  function CategoryOf(r: Record): Option<string> { if r.Record? then r.category else None }

  predicate MatchesSearch(r: Record, query: string)
  {
    Contains(SafeToString(TitleOf(r)), SafeToString(Some(query)))
  }

  predicate MatchesCategory(r: Record, category: string)
  {
    SafeToString(CategoryOf(r)) == SafeToString(Some(category))
  }

  // ---------------------------------------------------------------------------
  // The filter stages
  // ---------------------------------------------------------------------------

  function ValidProducts(all: seq<Record>): seq<Record>
  {
    Filter(all, IsValidProduct)
  }

  function Searched(products: seq<Record>, query: string): seq<Record>
  {
    Filter(products, r => MatchesSearch(r, query))
  }

  /** The category stage runs only for a non-empty category. */
  function InCategory(products: seq<Record>, category: string): seq<Record>
  {
    if category != "" then Filter(products, r => MatchesCategory(r, category))
    else products
  }

  /** The list whose length is reported as the total. */
  function Filtered(all: seq<Record>, query: string, category: string): seq<Record>
  {
    InCategory(Searched(ValidProducts(all), query), category)
  }

  /** A product is listed when it is valid, its lower-cased title contains
      the lower-cased query, and, when a category is given, its lower-cased
      category equals the lower-cased category. */
  predicate Selected(r: Record, query: string, category: string)
  {
    && IsValidProduct(r)
    && Contains(Lower(r.title.value), Lower(query))
    && (category != "" ==> Lower(r.category.value) == Lower(category))
  }

  /** The three stages are one filter by `Selected`: the filtered list holds
      exactly the selected records, in catalogue order. */
  lemma FilteredIsOneFilter(all: seq<Record>, query: string, category: string)
    ensures Filtered(all, query, category) == Filter(all, r => Selected(r, query, category))
  {
    var valid := IsValidProduct;
    var search := (r: Record) => MatchesSearch(r, query);
    var both := (r: Record) => IsValidProduct(r) && MatchesSearch(r, query);
    FilterTwice(all, valid, search, both);
    if category != "" {
      var cat := (r: Record) => MatchesCategory(r, category);
      FilterTwice(all, both, cat, r => Selected(r, query, category));
    } else {
      assert forall r :: both(r) == Selected(r, query, category);
      FilterEquivalent(all, both, r => Selected(r, query, category));
    }
  }

  lemma {:induction false} FilterEquivalent(s: seq<Record>, f: Record -> bool, g: Record -> bool)
    requires forall r :: f(r) == g(r)
    ensures Filter(s, f) == Filter(s, g)
  {
    if s != [] {
      FilterEquivalent(s[1..], f, g);
    }
  }

  /** An empty search keeps every valid product. */
  lemma EmptyQueryKeepsAll(products: seq<Record>)
    requires forall i | 0 <= i < |products| :: IsValidProduct(products[i])
    ensures Searched(products, "") == products
  {
    forall i | 0 <= i < |products|
      ensures MatchesSearch(products[i], "")
    {
      ContainsEmpty(SafeToString(TitleOf(products[i])));
    }
    FilterKeepsAll(products, r => MatchesSearch(r, ""));
  }

  /** The search is case-insensitive: a query and its lower-cased form select
      the same products. */
  lemma SearchIgnoresCase(r: Record, query: string)
    ensures MatchesSearch(r, query) == MatchesSearch(r, Lower(query))
  {
    LowerIdempotent(query);
  }

  /** The category match is whole-string equality after lower-casing, not
      containment: "Men" does not select "Women". */
  lemma CategoryIsExactMatch()
    ensures !MatchesCategory(
      Record(Some("1"), Some("Tee"), Some("Women"), None, None, None, None), "Men")
  {
    assert SafeToString(Some("Women")) != SafeToString(Some("Men")) by {
      assert |Lower("Women")| == 5 && |Lower("Men")| == 3;
    }
  }

  // ---------------------------------------------------------------------------
  // Sorting
  // ---------------------------------------------------------------------------

  /** `price || 0` and `popularity || 0`. */
  function PriceOrZero(r: Record): real
  {
    if r.Record? && r.price.Some? then r.price.value else 0.0
  }

  function PopularityOrZero(r: Record): real
  {
    if r.Record? && r.popularity.Some? then r.popularity.value else 0.0
  }

  // The comparators, each as the key it sorts ascending by.
  function PriceUp(r: Record): real { PriceOrZero(r) }
  function PriceDown(r: Record): real { -PriceOrZero(r) }
  function PopularityDown(r: Record): real { -PopularityOrZero(r) }

  /** Step 4: sort a copy by the criterion; any other criterion keeps the order. */
  function SortProducts(products: seq<Record>, sort: string): seq<Record>
  {
    if sort == "price-asc" then StableSort.Sort(products, PriceUp)
    else if sort == "price-desc" then StableSort.Sort(products, PriceDown)
    else if sort == "popularity" then StableSort.Sort(products, PopularityDown)
    else products
  }

  /** Every criterion yields a permutation; `price-asc` is non-decreasing in
      price, `price-desc` non-increasing in price, `popularity` non-increasing
      in popularity, and an unknown criterion leaves the list as it was. */
  lemma SortProductsOrders(products: seq<Record>, sort: string)
    ensures multiset(SortProducts(products, sort)) == multiset(products)
    ensures var r := SortProducts(products, sort);
      sort == "price-asc" ==>
        forall i, j | 0 <= i < j < |r| :: PriceOrZero(r[i]) <= PriceOrZero(r[j])
    ensures var r := SortProducts(products, sort);
      sort == "price-desc" ==>
        forall i, j | 0 <= i < j < |r| :: PriceOrZero(r[i]) >= PriceOrZero(r[j])
    ensures var r := SortProducts(products, sort);
      sort == "popularity" ==>
        forall i, j | 0 <= i < j < |r| :: PopularityOrZero(r[i]) >= PopularityOrZero(r[j])
    ensures sort !in {"price-asc", "price-desc", "popularity"} ==>
      SortProducts(products, sort) == products
  {
    var r := SortProducts(products, sort);
    if sort == "price-asc" {
      StableSort.SortSorts(products, PriceUp);
    } else if sort == "price-desc" {
      StableSort.SortSorts(products, PriceDown);
      forall i, j | 0 <= i < j < |r| ensures PriceOrZero(r[i]) >= PriceOrZero(r[j]) {
        assert PriceDown(r[i]) <= PriceDown(r[j]);
      }
    } else if sort == "popularity" {
      StableSort.SortSorts(products, PopularityDown);
      forall i, j | 0 <= i < j < |r| ensures PopularityOrZero(r[i]) >= PopularityOrZero(r[j]) {
        assert PopularityDown(r[i]) <= PopularityDown(r[j]);
      }
    }
  }

  /** Products with equal prices keep their catalogue order under either
      price sort. */
  lemma PriceSortIsStable(products: seq<Record>, price: real)
    ensures StableSort.WithKey(SortProducts(products, "price-asc"), PriceUp, price)
         == StableSort.WithKey(products, PriceUp, price)
    ensures StableSort.WithKey(SortProducts(products, "price-desc"), PriceDown, -price)
         == StableSort.WithKey(products, PriceDown, -price)
  {
    var asc := StableSort.Sort(products, PriceUp);
    var desc := StableSort.Sort(products, PriceDown);
    assert StableSort.WithKey(asc, PriceUp, price) == StableSort.WithKey(products, PriceUp, price) by {
      StableSort.SortIsStable(products, PriceUp, price);
    }
    assert StableSort.WithKey(desc, PriceDown, -price) == StableSort.WithKey(products, PriceDown, -price) by {
      StableSort.SortIsStable(products, PriceDown, -price);
    }
  }

  /** When no two listed products share a price, `price-desc` is exactly
      `price-asc` reversed. */
  lemma DescendingIsReversedAscending(products: seq<Record>)
    requires StableSort.DistinctKeys(products, PriceUp)
    ensures SortProducts(products, "price-desc")
         == StableSort.Reverse(SortProducts(products, "price-asc"))
  {
    StableSort.SortNegatedIsReverse(products, PriceUp, PriceDown);
  }

  // ---------------------------------------------------------------------------
  // The window
  // ---------------------------------------------------------------------------

  const PageSize: nat := 9

  /** `limit` when it is truthy, else page `currentPage` of 9 when that is
      truthy, else everything. */
  function Window(sorted: seq<Record>, limit: Option<int>, currentPage: int): (w: seq<Record>)
    ensures forall r | r in w :: r in sorted
  {
    if limit.Some? && limit.value != 0 then Slice(sorted, 0, limit.value)
    else if currentPage != 0 then
      var startIndex := (currentPage - 1) * PageSize;
      Slice(sorted, startIndex, startIndex + PageSize)
    else sorted
  }

  /** A positive limit shows the first `min(limit, n)` sorted items. */
  lemma WindowByLimit(sorted: seq<Record>, limit: int, currentPage: int)
    requires limit >= 1
    ensures Window(sorted, Some(limit), currentPage) == sorted[..Min(limit, |sorted|)]
  {
  }

  /** A negative limit counts from the end, as `slice` does: it drops the
      last `-limit` items. */
  lemma WindowByNegativeLimit(sorted: seq<Record>, limit: int, currentPage: int)
    requires limit < 0 && -limit <= |sorted|
    ensures Window(sorted, Some(limit), currentPage) == sorted[..|sorted| + limit]
  {
  }

  /** The home page preview (`limit={4}`) shows exactly the first four sorted
      products once there are at least four. */
  lemma HomePreviewShowsFirstFour(sorted: seq<Record>, currentPage: int)
    requires |sorted| >= 4
    ensures |Window(sorted, Some(4), currentPage)| == 4
    ensures Window(sorted, Some(4), currentPage) == sorted[..4]
  {
    WindowByLimit(sorted, 4, currentPage);
  }

  /** Without a limit, page `p >= 1` shows the items at positions
      `[(p-1)*9, (p-1)*9 + 9)` that exist: at most nine, in sorted order. */
  lemma WindowByPage(sorted: seq<Record>, limit: Option<int>, p: int)
    requires limit.None? || limit.value == 0
    requires p >= 1
    ensures var w := Window(sorted, limit, p);
      var start := (p - 1) * PageSize;
      && |w| <= PageSize
      && |w| == (if start >= |sorted| then 0 else Min(PageSize, |sorted| - start))
      && forall k | 0 <= k < |w| :: w[k] == sorted[start + k]
  {
    var start := (p - 1) * PageSize;
    assert start >= 0;
  }

  /** Page 2 is positions 9 to 17. */
  lemma SecondPage(sorted: seq<Record>)
    requires |sorted| >= 18
    ensures Window(sorted, None, 2) == sorted[9..18]
  {
  }

  /** Without a limit and with a falsy page, everything is shown. */
  lemma WindowAll(sorted: seq<Record>, limit: Option<int>)
    requires limit.None? || limit.value == 0
    ensures Window(sorted, limit, 0) == sorted
  {
  }

  // ---------------------------------------------------------------------------
  // The whole query
  // ---------------------------------------------------------------------------

  /** The body of `getSearchedProducts` after the fetch: each stage reassigns
      the working list, the total is taken before sorting, and the window is
      cut from the sorted copy. */
  method SearchProducts(
    allProducts: seq<Record>, query: string, sort: string, category: string,
    currentPage: int, limit: Option<int>)
    returns (productsToShow: seq<Record>, total: nat)
    ensures total == |Filtered(allProducts, query, category)|
    ensures forall r | r in productsToShow :: Selected(r, query, category)
    ensures productsToShow
         == Window(SortProducts(Filtered(allProducts, query, category), sort), limit, currentPage)
  {
    var searchedProducts := FilterStages(allProducts, query, category);
    total := |searchedProducts|;
    searchedProducts := SortStage(searchedProducts, sort);
    productsToShow := WindowStage(searchedProducts, limit, currentPage);
    ShownAreSelected(allProducts, query, category, sort, limit, currentPage);
  }

  /** Steps 1 to 3: the validity, search and category filters in turn. */
  method FilterStages(allProducts: seq<Record>, query: string, category: string)
    returns (searchedProducts: seq<Record>)
    ensures searchedProducts == Filtered(allProducts, query, category)
  {
    var validProducts := ValidProducts(allProducts);
    searchedProducts := Searched(validProducts, query);
    if category != "" {
      searchedProducts := InCategory(searchedProducts, category);
    }
  }

  /** Step 4: the sorted copy for a known criterion. */
  method SortStage(searchedProducts: seq<Record>, sort: string) returns (sorted: seq<Record>)
    ensures sorted == SortProducts(searchedProducts, sort)
  {
    sorted := searchedProducts;
    if sort == "price-asc" {
      sorted := StableSort.Sort(sorted, PriceUp);
    } else if sort == "price-desc" {
      sorted := StableSort.Sort(sorted, PriceDown);
    } else if sort == "popularity" {
      sorted := StableSort.Sort(sorted, PopularityDown);
    }
  }

  /** Step 5: the limit, else the page, else everything. */
  method WindowStage(sorted: seq<Record>, limit: Option<int>, currentPage: int)
    returns (productsToShow: seq<Record>)
    ensures productsToShow == Window(sorted, limit, currentPage)
  {
    if limit.Some? && limit.value != 0 {
      productsToShow := Slice(sorted, 0, limit.value);
    } else if currentPage != 0 {
      var startIndex := (currentPage - 1) * PageSize;
      var endIndex := startIndex + PageSize;
      productsToShow := Slice(sorted, startIndex, endIndex);
    } else {
      productsToShow := sorted;
    }
  }

  /** Whatever window is cut, every product shown is a selected one. */
  lemma ShownAreSelected(
    allProducts: seq<Record>, query: string, category: string, sort: string,
    limit: Option<int>, currentPage: int)
    ensures forall r | r in Window(SortProducts(Filtered(allProducts, query, category), sort), limit, currentPage)
      :: Selected(r, query, category)
  {
    var filtered := Filtered(allProducts, query, category);
    var sorted := SortProducts(filtered, sort);
    FilteredIsOneFilter(allProducts, query, category);
    FilterMembers(allProducts, r => Selected(r, query, category));
    SortProductsOrders(filtered, sort);
    forall r | r in Window(sorted, limit, currentPage) ensures Selected(r, query, category) {
      assert r in multiset(sorted);
      assert r in filtered;
    }
  }

  // ---------------------------------------------------------------------------
  // The component
  // ---------------------------------------------------------------------------

  /** What `customFetch("/products")` gave: the records, or a failure with
      the HTTP status when there was a response. */
  datatype FetchResult = Fetched(records: seq<Record>) | FetchFailed(status: Option<int>)

  const NotFoundText: string :=
    "Products endpoint not found. Check if JSON Server is running correctly."
  const UnreachableText: string :=
    "Failed to load products. Please make sure JSON Server is running on port 5000."

  /** The error text tells a 404 apart from every other failure. */
  function FetchErrorText(status: Option<int>): (text: string)
    ensures text == NotFoundText <==> status == Some(404)
    ensures text == UnreachableText <==> status != Some(404)
  {
    if status == Some(404) then NotFoundText else UnreachableText
  }

  /** The grid's state and the two counters of the shop store it reports to. */
  class ProductGrid {
    const category: string
    const limit: Option<int>
    var products: seq<Record>
    var loading: bool
    var error: Option<string>
    var totalProducts: int
    var showingProducts: int

    constructor (category: string, limit: Option<int>, totalProducts: int, showingProducts: int)
      ensures this.category == category && this.limit == limit
      ensures products == [] && loading && error.None?
      ensures this.totalProducts == totalProducts && this.showingProducts == showingProducts
    {
      this.category := category;
      this.limit := limit;
      products := [];
      loading := true;
      error := None;
      this.totalProducts := totalProducts;
      this.showingProducts := showingProducts;
    }

    /** `getSearchedProducts`. On success the grid holds the window, the store
        holds the filtered count and the window's length, and the total is
        dispatched only when it changed. On failure the grid is empty, the
        error text depends only on a 404, and the store is untouched. */
    method GetSearchedProducts(response: FetchResult, query: string, sort: string, currentPage: int)
      returns (dispatchedTotal: bool)
      modifies this
      ensures !loading
      ensures response.Fetched? ==>
        var filtered := Filtered(response.records, query, category);
        && error.None?
        && products == Window(SortProducts(filtered, sort), limit, currentPage)
        && totalProducts == |filtered|
        && showingProducts == |products|
        && dispatchedTotal == (old(totalProducts) != |filtered|)
      ensures response.FetchFailed? ==>
        && error == Some(FetchErrorText(response.status))
        && products == []
        && totalProducts == old(totalProducts)
        && showingProducts == old(showingProducts)
        && !dispatchedTotal
    {
      loading := true;
      error := None;
      dispatchedTotal := false;
      if response.Fetched? {
        var productsToShow, total := SearchProducts(response.records, query, sort, category, currentPage, limit);
        if totalProducts != total {
          totalProducts := total;
          dispatchedTotal := true;
        }
        showingProducts := |productsToShow|;
        products := productsToShow;
      } else {
        error := Some(FetchErrorText(response.status));
        products := [];
      }
      loading := false;
    }
  }
}
