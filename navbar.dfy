/**
 * The quick-search overlay of the navigation bar: the effect that fills the
 * result list from the typed query, the panel it shows, the popular-search
 * chips, and the submit and result-click handlers.
 *
 * Unlike the products page filter, the quick search matches the category
 * as well as the name; the two are kept separate on purpose.
 */
module Navbar {
  import opened Wrappers
  import opened Seqs
  import opened Text
  import opened Catalog
  import opened ProductsPage

  const MaxQuickResults: nat := 5

  /** The chips offered while the query is blank. */
  const PopularSearches: seq<string> := ["Sofa", "Dining Table", "Office Chair", "Bed", "Bookshelf"]

  /** The lower-cased query occurs in the lower-cased name or the lower-cased category. */
  predicate QuickMatch(query: string, p: Product) {
    Includes(Lower(p.name), Lower(query)) || Includes(Lower(p.category), Lower(query))
  }

  function QuickMatcher(query: string): Product -> bool {
    (p: Product) => QuickMatch(query, p)
  }

  /**
   * The search effect: nothing for a blank query, otherwise the first five
   * catalog products that match the query as typed (trimming only decides
   * blankness; the untrimmed query is what is matched).
   */
  function QuickSearch(catalog: seq<Product>, query: string): (r: seq<Product>)
    ensures |r| <= MaxQuickResults
    ensures Blank(query) ==> r == []
  {
    TrimEmptyIff(query);
    if Trim(query) == "" then [] else Take(Filter(catalog, QuickMatcher(query)), MaxQuickResults)
  }

  /** Every result is a catalog product whose name or category contains the query. */
  lemma QuickSearchSound(catalog: seq<Product>, query: string)
    ensures forall i :: 0 <= i < |QuickSearch(catalog, query)| ==>
      QuickSearch(catalog, query)[i] in catalog && QuickMatch(query, QuickSearch(catalog, query)[i])
  {
    var r := QuickSearch(catalog, query);
    if Trim(query) != "" {
      var matches := Filter(catalog, QuickMatcher(query));
      assert forall i :: 0 <= i < |r| ==> r[i] == matches[i];
    }
  }

  /**
   * For a query that is not blank the results are the leading matches in
   * catalog order: five of them, or all when there are fewer.
   */
  lemma QuickSearchIsFirstMatches(catalog: seq<Product>, query: string)
    requires !Blank(query)
    ensures QuickSearch(catalog, query) <= Filter(catalog, QuickMatcher(query))
    ensures |QuickSearch(catalog, query)| == Min(MaxQuickResults, |Filter(catalog, QuickMatcher(query))|)
  {
    TrimEmptyIff(query);
  }

  function Min(a: int, b: int): int {
    if a <= b then a else b
  }

  /**
   * When at most five products match, a product is listed exactly when it is
   * in the catalog and its name or category contains the query.
   */
  lemma QuickSearchMembership(catalog: seq<Product>, query: string, p: Product)
    requires !Blank(query) && |Filter(catalog, QuickMatcher(query))| <= MaxQuickResults
    ensures p in QuickSearch(catalog, query) <==> p in catalog && QuickMatch(query, p)
  {
    TrimEmptyIff(query);
    FilterMembership(catalog, QuickMatcher(query), p);
  }

  lemma IncludesNoLonger(s: string, t: string)
    requires Includes(s, t)
    ensures |t| <= |s|
  {
    IncludesIff(s, t);
  }

  lemma SofaLiterals()
    ensures Lower("Sofa") == "sofa"
    ensures Lower("Living Room") == "living room"
    ensures Lower("sofa") == "sofa"
    ensures Lower("sofa ") == "sofa "
  {
  }

  /**
   * Matching uses the untrimmed query: a trailing space makes "sofa " miss a
   * product named "Sofa" in "Living Room", although "sofa" finds it.
   */
  lemma UntrimmedQueryMatters(p: Product)
    requires p.name == "Sofa" && p.category == "Living Room"
    ensures QuickSearch([p], "sofa") == [p]
    ensures QuickSearch([p], "sofa ") == []
  {
    SofaLiterals();
    assert !Blank("sofa") by { assert !IsSpace("sofa"[0]); }
    assert !Blank("sofa ") by { assert !IsSpace("sofa "[0]); }
    assert QuickMatch("sofa", p) by {
      assert Includes("sofa", "sofa");
    }
    assert !QuickMatch("sofa ", p) by {
      if Includes("sofa", "sofa ") {
        IncludesNoLonger("sofa", "sofa ");
      }
      assert 's' !in "living room";
      if Includes("living room", "sofa ") {
        IncludesFirstChar("living room", "sofa ");
      }
    }
    FilterMembership([p], QuickMatcher("sofa"), p);
    assert Filter([p], QuickMatcher("sofa")) == [p];
    assert Filter([p], QuickMatcher("sofa ")) == [];
    QuickSearchIsFirstMatches([p], "sofa");
    QuickSearchIsFirstMatches([p], "sofa ");
  }

  lemma LivingLiterals()
    ensures Lower("living") == "living"
    ensures Lower("Sofa") == "sofa"
    ensures Lower("Living Room") == "living room"
  {
  }

  /**
   * The quick search also looks at the category, the products page search
   * does not: "living" finds a sofa in "Living Room" here but not there.
   */
  lemma QuickSearchWiderThanPageSearch(p: Product)
    requires p.name == "Sofa" && p.category == "Living Room"
    ensures QuickMatch("living", p)
    ensures !MatchesSearch(InitialFilters().(search := "living"), p)
  {
    LivingLiterals();
    assert "living room"[..6] == "living";
    IncludesAt("living room", "living", 0);
    assert 'l' !in "sofa";
    if Includes("sofa", "living") {
      IncludesFirstChar("sofa", "living");
    }
  }

  lemma EmptyQueryFindsNothing(catalog: seq<Product>)
    ensures QuickSearch(catalog, "") == []
  {
    assert Blank("");
  }

  /** What the result area shows. */
  datatype PanelView =
    | StartSearching(chips: seq<string>)   // blank query: the prompt and the popular searches
    | Found(results: seq<Product>)         // "Found n result(s)" and the list
    | NoResults

  function Panel(query: string, results: seq<Product>): (v: PanelView)
    ensures v.StartSearching? <==> Trim(query) == ""
    ensures v.StartSearching? ==> v.chips == PopularSearches
    ensures v.Found? ==> v.results == results && |results| > 0
    ensures v.NoResults? <==> Trim(query) != "" && results == []
  {
    if Trim(query) == "" then StartSearching(PopularSearches)
    else if |results| > 0 then Found(results)
    else NoResults
  }

  /** The navigation bar's search state; `catalog` is the product list it searches. */
  class SearchPanel {
    const catalog: seq<Product>
    var isOpen: bool
    var query: string
    var results: seq<Product>

    /** The effect has run: the results are those of the current query. */
    ghost predicate Valid()
      reads this
    {
      results == QuickSearch(catalog, query)
    }

    constructor (catalog: seq<Product>)
      ensures Valid()
      ensures this.catalog == catalog && !isOpen && query == "" && results == []
    {
      this.catalog := catalog;
      isOpen := false;
      query := "";
      results := [];
    }

    /** The search icon (or the mobile menu's search entry). */
    method Open()
      requires Valid()
      modifies this
      ensures Valid()
      ensures isOpen && query == old(query) && results == old(results)
    {
      isOpen := true;
    }

    /** The close button or a click on the backdrop: the query is kept. */
    method Close()
      requires Valid()
      modifies this
      ensures Valid()
      ensures !isOpen && query == old(query) && results == old(results)
    {
      isOpen := false;
    }

    /** Typing in the search field, followed by the search effect. */
    method Type(value: string)
      requires Valid() && isOpen
      modifies this
      ensures Valid()
      ensures isOpen && query == value
      ensures |results| <= MaxQuickResults && (Blank(value) ==> results == [])
    {
      query := value;
      results := QuickSearch(catalog, value);
    }

    /** A popular-search chip, offered while the query is blank: the query becomes its term. */
    method ChoosePopular(i: nat)
      requires Valid() && isOpen && Trim(query) == "" && i < |PopularSearches|
      modifies this
      ensures Valid()
      ensures isOpen && query == PopularSearches[i]
    {
      Type(PopularSearches[i]);
    }

    /**
     * `handleSearchSubmit`: a blank query does nothing; otherwise the page is
     * sent to the products search for the query as typed, and the panel
     * closes with an empty query.
     */
    method Submit() returns (target: Option<string>)
      requires Valid()
      modifies this
      ensures Valid()
      ensures Blank(old(query)) ==> target == None && isOpen == old(isOpen) && query == old(query)
      ensures !Blank(old(query)) ==> target == Some(old(query)) && !isOpen && query == "" && results == []
    {
      TrimEmptyIff(query);
      if Trim(query) != "" {
        target := Some(query);
        isOpen := false;
        ClearQuery();
      } else {
        target := None;
      }
    }

    /** `handleProductClick`: returns the id of the product page to open; the panel closes with an empty query. */
    method ClickResult(i: nat) returns (productId: int)
      requires Valid() && isOpen && i < |results|
      modifies this
      ensures Valid()
      ensures productId == old(results[i]).id && old(results[i]) in catalog
      ensures !isOpen && query == "" && results == []
    {
      var chosen := results[i];
      QuickSearchSound(catalog, query);
      productId := chosen.id;
      isOpen := false;
      ClearQuery();
    }

    /** `setSearchQuery('')` followed by the search effect. */
    method ClearQuery()
      modifies this
      ensures Valid()
      ensures query == "" && results == [] && isOpen == old(isOpen)
    {
      EmptyQueryFindsNothing(catalog);
      query := "";
      results := [];
    }

    function View(): PanelView
      reads this
    {
      Panel(query, results)
    }
  }
}
