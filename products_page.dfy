/**
 * The catalog query engine of the products page: a five-part filter over
 * the catalog, a stable keyed sort, and the split of the result into the
 * "Available Now" and "Pre-Order Collection" sections.
 */
module ProductsPage {
  import opened Wrappers
  import opened Seqs
  import opened Text
  import opened Catalog

  /** The upper price bound; `Infinity` is `NoCap`. */
  datatype PriceCap = NoCap | Cap(max: real)

  /** The availability radio: 'all' or one status. */
  datatype StatusChoice = AllStatuses | Only(status: Status)

  /**
   * The sort dropdown. The comparator's `default` branch (returning 0) is
   * `Featured`: any value other than the four named keys behaves the same.
   */
  datatype SortBy = Featured | Newest | PriceLow | PriceHigh | TopRated

  /** The filter record of the page, replaced wholesale on every change. */
  datatype Filters = Filters(
    search: string,
    category: string,
    status: StatusChoice,
    priceMin: real,
    priceMax: PriceCap,
    minRating: real,
    sortBy: SortBy
  )

  const AllCategories: string := "All"

  /** The record the page starts with, and the one both "Reset Filters" buttons install. */
  function InitialFilters(): Filters {
    Filters("", AllCategories, AllStatuses, 0.0, NoCap, 0.0, Featured)
  }

  // ---------------------------------------------------------------- filtering

  /** Case-insensitive substring test on the product NAME only. */
  predicate MatchesSearch(f: Filters, p: Product) {
    Includes(Lower(p.name), Lower(f.search))
  }

  /**
   * The search ignores letter case on both sides, looks at the name only,
   * and an empty search text matches every product.
   */
  lemma SearchIgnoresCase(f: Filters, p: Product, category: string)
    ensures MatchesSearch(f.(search := Lower(f.search)), p) == MatchesSearch(f, p)
    ensures MatchesSearch(f, p.(name := Lower(p.name))) == MatchesSearch(f, p)
    ensures MatchesSearch(f, p.(category := category)) == MatchesSearch(f, p)
    ensures f.search == "" ==> MatchesSearch(f, p)
  {
    LowerIdempotent(f.search);
    LowerIdempotent(p.name);
    if f.search == "" {
      assert Lower(f.search) == "";
      IncludesEmpty(Lower(p.name));
    }
  }

  predicate MatchesCategory(f: Filters, p: Product) {
    f.category == AllCategories || p.category == f.category
  }

  predicate MatchesStatus(f: Filters, p: Product) {
    match f.status
    case AllStatuses => true
    case Only(s) => p.status == s
  }

  /** Both bounds are inclusive. */
  predicate MatchesPrice(f: Filters, p: Product) {
    p.price >= f.priceMin &&
    match f.priceMax
    case NoCap => true
    case Cap(max) => p.price <= max
  }

  predicate MatchesRating(f: Filters, p: Product) {
    p.rating >= f.minRating
  }

  predicate Matches(f: Filters, p: Product) {
    MatchesSearch(f, p) && MatchesCategory(f, p) && MatchesStatus(f, p) &&
    MatchesPrice(f, p) && MatchesRating(f, p)
  }

  function Matcher(f: Filters): Product -> bool {
    p => Matches(f, p)
  }

  /** The filter step: the matching products in catalog order. */
  function Selected(catalog: seq<Product>, f: Filters): seq<Product> {
    Filter(catalog, Matcher(f))
  }

  // ------------------------------------------------------------------ sorting

  /**
   * Every comparator of the page is `key(a) - key(b)` for this key, so the
   * sort orders the products by ascending key.
   */
  function SortKey(order: SortBy, p: Product): real {
    match order
    case PriceLow => p.price
    case PriceHigh => -p.price
    case TopRated => -p.rating
    case Newest => -(p.id as real)
    case Featured => 0.0
  }

  ghost predicate SortedBy(order: SortBy, s: seq<Product>) {
    forall i, j :: 0 <= i < j < |s| ==> SortKey(order, s[i]) <= SortKey(order, s[j])
  }

  /** Puts `x` before the first element whose key is not smaller than its own. */
  function Insert(order: SortBy, x: Product, s: seq<Product>): (r: seq<Product>)
    ensures multiset(r) == multiset(s) + multiset{x}
  {
    if s == [] || SortKey(order, x) <= SortKey(order, s[0]) then [x] + s
    else
      assert s == [s[0]] + s[1..];
      [s[0]] + Insert(order, x, s[1..])
  }

  /** A lower bound on the keys of `x` and of `s` bounds the keys of the insertion too. */
  lemma {:induction false} InsertBound(order: SortBy, x: Product, s: seq<Product>, b: real)
    requires b <= SortKey(order, x)
    requires forall i :: 0 <= i < |s| ==> b <= SortKey(order, s[i])
    ensures forall i :: 0 <= i < |Insert(order, x, s)| ==> b <= SortKey(order, Insert(order, x, s)[i])
  {
    if !(s == [] || SortKey(order, x) <= SortKey(order, s[0])) {
      InsertBound(order, x, s[1..], b);
      var t := Insert(order, x, s[1..]);
      assert Insert(order, x, s) == [s[0]] + t;
    }
  }

  lemma {:induction false} InsertSorted(order: SortBy, x: Product, s: seq<Product>)
    requires SortedBy(order, s)
    ensures SortedBy(order, Insert(order, x, s))
  {
    if !(s == [] || SortKey(order, x) <= SortKey(order, s[0])) {
      InsertSorted(order, x, s[1..]);
      InsertBound(order, x, s[1..], SortKey(order, s[0]));
    }
  }

  /** `Array.prototype.sort` with the page's comparator: a stable sort by ascending `SortKey`. */
  function StableSort(order: SortBy, s: seq<Product>): (r: seq<Product>)
    ensures multiset(r) == multiset(s)
  {
    if s == [] then []
    else
      assert s == [s[0]] + s[1..];
      Insert(order, s[0], StableSort(order, s[1..]))
  }

  /** The sort orders the products by ascending key. */
  lemma {:induction false} StableSortSorted(order: SortBy, s: seq<Product>)
    ensures SortedBy(order, StableSort(order, s))
  {
    if s != [] {
      StableSortSorted(order, s[1..]);
      InsertSorted(order, s[0], StableSort(order, s[1..]));
    }
  }

  function KeyIs(order: SortBy, k: real): Product -> bool {
    p => SortKey(order, p) == k
  }

  /** The products of `s` whose sort key is `k`, in their order in `s`. */
  function WithKey(s: seq<Product>, order: SortBy, k: real): seq<Product> {
    Filter(s, KeyIs(order, k))
  }

  /** The products kept from `x` alone, as a sequence of zero or one products. */
  function KeptWithKey(order: SortBy, x: Product, k: real): seq<Product> {
    if SortKey(order, x) == k then [x] else []
  }

  /** Putting a product with a smaller key than `x` in front: at most one of the two is kept. */
  lemma InsertWithKeyStep(order: SortBy, x: Product, y: Product, t: seq<Product>, w: seq<Product>, k: real)
    requires SortKey(order, y) < SortKey(order, x)
    requires WithKey(t, order, k) == KeptWithKey(order, x, k) + w
    ensures WithKey([y] + t, order, k) == KeptWithKey(order, x, k) + (KeptWithKey(order, y, k) + w)
  {
    FilterHead(y, t, KeyIs(order, k));
  }

  lemma {:induction false} InsertWithKey(order: SortBy, x: Product, s: seq<Product>, k: real)
    ensures WithKey(Insert(order, x, s), order, k) == KeptWithKey(order, x, k) + WithKey(s, order, k)
  {
    if s == [] || SortKey(order, x) <= SortKey(order, s[0]) {
      assert Insert(order, x, s) == [x] + s;
      FilterHead(x, s, KeyIs(order, k));
    } else {
      InsertWithKey(order, x, s[1..], k);
      var t := Insert(order, x, s[1..]);
      assert Insert(order, x, s) == [s[0]] + t;
      InsertWithKeyStep(order, x, s[0], t, WithKey(s[1..], order, k), k);
      assert WithKey(s, order, k) == KeptWithKey(order, s[0], k) + WithKey(s[1..], order, k);
    }
  }

  /** Stability: for every key, the products with that key keep their relative order. */
  lemma {:induction false} SortStable(order: SortBy, s: seq<Product>, k: real)
    ensures WithKey(StableSort(order, s), order, k) == WithKey(s, order, k)
  {
    if s != [] {
      SortStable(order, s[1..], k);
      InsertWithKey(order, s[0], StableSort(order, s[1..]), k);
    }
  }

  /** Sorting by `Featured` (comparator always 0) leaves the order unchanged. */
  lemma {:induction false} FeaturedKeepsOrder(s: seq<Product>)
    ensures StableSort(Featured, s) == s
  {
    if s != [] {
      FeaturedKeepsOrder(s[1..]);
      assert [s[0]] + s[1..] == s;
    }
  }

  // ---------------------------------------------------------------- the query

  /** `filteredProducts`: filter, then sort; the result is the selection reordered by the chosen key. */
  function FilteredProducts(catalog: seq<Product>, f: Filters): (r: seq<Product>)
    ensures multiset(r) == multiset(Selected(catalog, f))
    ensures SortedBy(f.sortBy, r)
  {
    StableSortSorted(f.sortBy, Selected(catalog, f));
    StableSort(f.sortBy, Selected(catalog, f))
  }

  /** A product is in the result exactly when it is in the catalog and passes all five tests. */
  lemma QueryMembership(catalog: seq<Product>, f: Filters, p: Product)
    ensures p in FilteredProducts(catalog, f) <==> p in catalog && Matches(f, p)
  {
    var sel := Selected(catalog, f);
    assert p in FilteredProducts(catalog, f) <==> p in multiset(sel);
    FilterMembership(catalog, Matcher(f), p);
  }

  /** The result is a permutation of the filtered catalog, ordered as `sortBy` asks. */
  lemma QueryOrder(catalog: seq<Product>, f: Filters)
    ensures multiset(FilteredProducts(catalog, f)) == multiset(Selected(catalog, f))
    ensures var r := FilteredProducts(catalog, f);
      && (f.sortBy == PriceLow ==> forall i, j :: 0 <= i < j < |r| ==> r[i].price <= r[j].price)
      && (f.sortBy == PriceHigh ==> forall i, j :: 0 <= i < j < |r| ==> r[i].price >= r[j].price)
      && (f.sortBy == TopRated ==> forall i, j :: 0 <= i < j < |r| ==> r[i].rating >= r[j].rating)
      && (f.sortBy == Newest ==> forall i, j :: 0 <= i < j < |r| ==> r[i].id >= r[j].id)
      && (f.sortBy == Featured ==> r == Selected(catalog, f))
  {
    var r := FilteredProducts(catalog, f);
    StableSortSorted(f.sortBy, Selected(catalog, f));
    if f.sortBy == Featured {
      FeaturedKeepsOrder(Selected(catalog, f));
    }
    if f.sortBy == Newest {
      forall i, j | 0 <= i < j < |r| ensures r[i].id >= r[j].id {
        assert SortKey(Newest, r[i]) <= SortKey(Newest, r[j]);
      }
    }
  }

  /** Products with equal sort keys appear in the result in catalog order. */
  lemma QueryTiesKeepCatalogOrder(catalog: seq<Product>, f: Filters, k: real)
    ensures WithKey(FilteredProducts(catalog, f), f.sortBy, k) == WithKey(Selected(catalog, f), f.sortBy, k)
  {
    SortStable(f.sortBy, Selected(catalog, f), k);
  }

  /**
   * With the initial (or reset) filters the page lists the whole catalog in
   * catalog order, provided no price or rating is negative.
   */
  lemma InitialFiltersShowCatalog(catalog: seq<Product>)
    requires forall i :: 0 <= i < |catalog| ==> catalog[i].price >= 0.0 && catalog[i].rating >= 0.0
    ensures FilteredProducts(catalog, InitialFilters()) == catalog
  {
    var f := InitialFilters();
    forall i | 0 <= i < |catalog| ensures Matcher(f)(catalog[i]) {
      IncludesEmpty(Lower(catalog[i].name));
    }
    FilterAll(catalog, Matcher(f));
    FeaturedKeepsOrder(catalog);
  }

  // --------------------------------------------------------- status sections

  function HasStatus(s: Status): Product -> bool {
    (p: Product) => p.status == s
  }

  /** `availableProducts`. */
  function AvailableProducts(results: seq<Product>): seq<Product> {
    Filter(results, HasStatus(Available))
  }

  /** `preorderProducts`. */
  function PreorderProducts(results: seq<Product>): seq<Product> {
    Filter(results, HasStatus(Preorder))
  }

  /**
   * The two sections hold only their status, share no product, and together
   * hold every product of the result exactly as often as the result does.
   */
  lemma SectionsPartitionResults(results: seq<Product>)
    ensures forall i :: 0 <= i < |AvailableProducts(results)| ==> AvailableProducts(results)[i].status == Available
    ensures forall i :: 0 <= i < |PreorderProducts(results)| ==> PreorderProducts(results)[i].status == Preorder
    ensures forall p :: !(p in AvailableProducts(results) && p in PreorderProducts(results))
    ensures multiset(AvailableProducts(results)) + multiset(PreorderProducts(results)) == multiset(results)
  {
    FilterSplit(results, HasStatus(Available), HasStatus(Preorder));
  }

  // ------------------------------------------------------------ price radios

  datatype PriceRange = PriceRange(name: string, min: real, max: PriceCap)

  /** `priceRanges` of the sidebar. */
  const PriceRanges: seq<PriceRange> := [
    PriceRange("All Prices", 0.0, NoCap),
    PriceRange("Under $500", 0.0, Cap(500.0)),
    PriceRange("$500 - $1000", 500.0, Cap(1000.0)),
    PriceRange("$1000 - $2000", 1000.0, Cap(2000.0)),
    PriceRange("$2000 - $5000", 2000.0, Cap(5000.0)),
    PriceRange("Over $5000", 5000.0, NoCap)
  ]

  /** Clicking a price radio copies its bounds into the filters. */
  function SelectPriceRange(f: Filters, r: PriceRange): (g: Filters)
    ensures g.priceMin == r.min && g.priceMax == r.max
    ensures g.search == f.search && g.category == f.category && g.status == f.status
    ensures g.minRating == f.minRating && g.sortBy == f.sortBy
  {
    f.(priceMin := r.min, priceMax := r.max)
  }

  /** A price radio is checked when both bounds equal the range's. */
  predicate RangeChecked(f: Filters, r: PriceRange) {
    f.priceMin == r.min && f.priceMax == r.max
  }

  /** After a price radio is clicked, it and only it is checked. */
  lemma OnlySelectedRangeChecked(f: Filters, i: nat, j: nat)
    requires i < |PriceRanges| && j < |PriceRanges|
    ensures RangeChecked(SelectPriceRange(f, PriceRanges[i]), PriceRanges[j]) <==> i == j
  {
  }

  /** The initial filters check "All Prices". */
  lemma InitialFiltersCheckAllPrices()
    ensures RangeChecked(InitialFilters(), PriceRanges[0])
  {
  }

  /** A price of exactly 500 passes both "Under $500" and "$500 - $1000": the bounds overlap. */
  lemma BoundaryPriceInTwoRanges(f: Filters, p: Product)
    requires p.price == 500.0
    ensures MatchesPrice(SelectPriceRange(f, PriceRanges[1]), p)
    ensures MatchesPrice(SelectPriceRange(f, PriceRanges[2]), p)
  {
  }

  // ----------------------------------------------------------------- example

  lemma LowerChairNames()
    ensures Lower("chair") == "chair"
    ensures Lower("Egg-shaped Accent Chair") == "egg-shaped accent chair"
  {
  }

  lemma ChairNameMatches()
    ensures Includes("egg-shaped accent chair", "chair")
  {
    assert "egg-shaped accent chair"[18..] == "chair";
    IncludesAt("egg-shaped accent chair", "chair", 18);
  }

  lemma UtensilNameDoesNotMatch()
    ensures !Includes(Lower("Bamboo Utensil Set"), Lower("chair"))
  {
    assert Lower("chair") == "chair";
    assert 'c' !in Lower("Bamboo Utensil Set") by {
      assert Lower("Bamboo Utensil Set") == "bamboo utensil set";
    }
    if Includes(Lower("Bamboo Utensil Set"), "chair") {
      IncludesFirstChar(Lower("Bamboo Utensil Set"), "chair");
    }
  }

  /**
   * Searching "chair" in a catalog of an "Egg-shaped Accent Chair" and a
   * "Bamboo Utensil Set" lists only the chair.
   */
  lemma ChairSearchExample(chair: Product, utensils: Product)
    requires chair.name == "Egg-shaped Accent Chair" && chair.price >= 0.0 && chair.rating >= 0.0
    requires utensils.name == "Bamboo Utensil Set"
    ensures FilteredProducts([chair, utensils], InitialFilters().(search := "chair")) == [chair]
  {
    var f := InitialFilters().(search := "chair");
    assert Matches(f, chair) by {
      LowerChairNames();
      ChairNameMatches();
    }
    assert !Matches(f, utensils) by {
      UtensilNameDoesNotMatch();
    }
    assert Selected([chair, utensils], f) == [chair] by {
      assert Matcher(f)(chair) && !Matcher(f)(utensils);
      assert [chair, utensils][1..] == [utensils];
      assert [utensils][1..] == [];
      assert Filter([utensils], Matcher(f)) == [];
    }
    FeaturedKeepsOrder([chair]);
  }
}
