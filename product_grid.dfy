/**
 * The product grid's derived data: the list of distinct subcategories shown
 * as filter chips, and the visible products after the subcategory stage and
 * the text-search stage.
 */
module ProductGrid {

  import opened Options
  import opened Strings
  import opened Seqs
  import opened Catalog

  // ---------------------------------------------------------------------
  // Distinct subcategories

  /** `data.map(p => p.subcategory).filter(s => s !== null)`. */
  function NonNullSubcategories(products: seq<Product>): (r: seq<string>)
    ensures forall x :: x in r <==> exists p :: p in products && p.subcategory == Some(x)
  {
    if products == [] then []
    else
      var rest := NonNullSubcategories(products[1..]);
      assert forall p :: p in products <==> p == products[0] || p in products[1..];
      match products[0].subcategory
      case Some(x) => [x] + rest
      case None => rest
  }

  /** No value occurs twice. */
  ghost predicate NoDuplicates(xs: seq<string>)
  {
    forall i, j :: 0 <= i < j < |xs| ==> xs[i] != xs[j]
  }

  /**
   * `[...new Set(xs)]`: values inserted left to right into an
   * insertion-ordered set, skipping those already present.
   */
  function Dedup(xs: seq<string>): (r: seq<string>)
    ensures forall x :: x in r <==> x in xs
    ensures NoDuplicates(r)
  {
    if xs == [] then []
    else
      var d := Dedup(xs[..|xs| - 1]);
      var y := xs[|xs| - 1];
      assert forall x :: x in xs <==> x in xs[..|xs| - 1] || x == y by {
        assert xs == xs[..|xs| - 1] + [y];
      }
      if y in d then d else d + [y]
  }

  /** The position of the first occurrence of `x` in `xs`. */
  function FirstIndex(xs: seq<string>, x: string): (k: nat)
    requires x in xs
    ensures k < |xs| && xs[k] == x && x !in xs[..k]
  {
    if xs[0] == x then 0 else 1 + FirstIndex(xs[1..], x)
  }

  lemma FirstIndexUnique(xs: seq<string>, x: string, k: nat)
    requires k < |xs| && xs[k] == x && x !in xs[..k]
    ensures FirstIndex(xs, x) == k
  {
  }

  /** The deduplicated list keeps the values in the order of their first occurrence. */
  lemma {:induction false} DedupFirstSeenOrder(xs: seq<string>)
    ensures forall i, j :: 0 <= i < j < |Dedup(xs)| ==>
      FirstIndex(xs, Dedup(xs)[i]) < FirstIndex(xs, Dedup(xs)[j])
  {
    if xs != [] {
      var n := |xs| - 1;
      var p := xs[..n];
      var y := xs[n];
      var d := Dedup(p);
      DedupFirstSeenOrder(p);
      forall x | x in p ensures FirstIndex(xs, x) == FirstIndex(p, x) {
        var k := FirstIndex(p, x);
        assert xs[..k] == p[..k];
        FirstIndexUnique(xs, x, k);
      }
      var r := Dedup(xs);
      forall i, j | 0 <= i < j < |r| ensures FirstIndex(xs, r[i]) < FirstIndex(xs, r[j]) {
        assert r[i] in d;
        if j < |d| {
          assert r[i] == d[i] && r[j] == d[j];
        } else {
          assert y !in d && r[j] == y;
          assert xs[..n] == p;
          FirstIndexUnique(xs, y, n);
        }
      }
    }
  }

  /** The subcategory chips, lines 39-45. */
  function UniqueSubcategories(products: seq<Product>): (r: seq<string>)
    ensures NoDuplicates(r)
    ensures forall x :: x in r <==> exists p :: p in products && p.subcategory == Some(x)
    ensures products == [] ==> r == []
  {
    Dedup(NonNullSubcategories(products))
  }

  /** The chips appear in the order in which their subcategories first occur in the product list. */
  lemma UniqueSubcategoriesFirstSeen(products: seq<Product>)
    ensures var xs := NonNullSubcategories(products);
      forall i, j :: 0 <= i < j < |UniqueSubcategories(products)| ==>
        FirstIndex(xs, UniqueSubcategories(products)[i]) < FirstIndex(xs, UniqueSubcategories(products)[j])
    ensures forall i, j :: 0 <= i < j < |UniqueSubcategories(products)| ==>
      FirstProductWith(products, UniqueSubcategories(products)[i]) <
      FirstProductWith(products, UniqueSubcategories(products)[j])
  {
    var xs := NonNullSubcategories(products);
    var u := UniqueSubcategories(products);
    DedupFirstSeenOrder(xs);
    forall i, j | 0 <= i < j < |u|
      ensures FirstProductWith(products, u[i]) < FirstProductWith(products, u[j])
    {
      assert u[i] in xs && u[j] in xs;
      FirstSeenAgrees(products, u[i], u[j]);
    }
  }

  /** The position of the first product whose subcategory is `x`. */
  function FirstProductWith(products: seq<Product>, x: string): (k: nat)
    requires exists p :: p in products && p.subcategory == Some(x)
    ensures k < |products| && products[k].subcategory == Some(x)
    ensures forall j :: 0 <= j < k ==> products[j].subcategory != Some(x)
  {
    assert forall p :: p in products ==> p == products[0] || p in products[1..];
    if products[0].subcategory == Some(x) then 0 else 1 + FirstProductWith(products[1..], x)
  }

  /**
   * Positions in the list of present subcategories and positions in the
   * product list order first occurrences the same way.
   */
  lemma {:induction false} FirstSeenAgrees(products: seq<Product>, x: string, y: string)
    requires x in NonNullSubcategories(products) && y in NonNullSubcategories(products)
    requires FirstIndex(NonNullSubcategories(products), x) < FirstIndex(NonNullSubcategories(products), y)
    ensures FirstProductWith(products, x) < FirstProductWith(products, y)
  {
    var xs := NonNullSubcategories(products);
    var rest := NonNullSubcategories(products[1..]);
    match products[0].subcategory
    case Some(z) =>
      assert xs == [z] + rest;
      if x != z {
        assert y != z;
        assert xs[1..] == rest;
        FirstSeenAgrees(products[1..], x, y);
      }
    case None =>
      assert xs == rest;
      FirstSeenAgrees(products[1..], x, y);
  }

  // ---------------------------------------------------------------------
  // The visible products

  const AllSubcategories: string := "all"

  function HasSubcategory(selected: string): Product -> bool
  {
    (p: Product) => p.subcategory == Some(selected)
  }

  /** Lines 56-58: keep everything for 'all', otherwise exact matches. */
  function BySubcategory(products: seq<Product>, selected: string): (r: seq<Product>)
    ensures IsSubsequence(r, products)
    ensures forall p :: p in r <==> p in products && (selected == AllSubcategories || p.subcategory == Some(selected))
    ensures forall p :: multiset(r)[p] == (if selected == AllSubcategories || p.subcategory == Some(selected) then multiset(products)[p] else 0)
  {
    SubsequenceOfSelf(products);
    if selected != AllSubcategories then Filter(products, HasSubcategory(selected)) else products
  }

  /** `searchQuery && searchQuery.trim() !== ''`. */
  predicate SearchActive(searchQuery: Option<string>): (r: bool)
    ensures r <==> searchQuery.Some? && !IsBlank(searchQuery.value)
  {
    TrimEmptyIffBlank(if searchQuery.Some? then searchQuery.value else "");
    searchQuery.Some? && Truthy(searchQuery.value) && Trim(searchQuery.value) != ""
  }

  /**
   * A product matches an already lower-cased query when the query occurs in
   * its lower-cased name, or in its subcategory or description when those are
   * present and non-empty.
   */
  predicate MatchesQuery(p: Product, query: string): (r: bool)
    ensures r <==>
      || (exists k :: OccursAt(ToLower(p.name), query, k))
      || (OptTruthy(p.subcategory) && exists k :: OccursAt(ToLower(p.subcategory.value), query, k))
      || (OptTruthy(p.description) && exists k :: OccursAt(ToLower(p.description.value), query, k))
  {
    IncludesIffOccurs(ToLower(p.name), query);
    IncludesIffOccurs(ToLower(if p.subcategory.Some? then p.subcategory.value else ""), query);
    IncludesIffOccurs(ToLower(if p.description.Some? then p.description.value else ""), query);
    || Includes(ToLower(p.name), query)
    || (OptTruthy(p.subcategory) && Includes(ToLower(p.subcategory.value), query))
    || (OptTruthy(p.description) && Includes(ToLower(p.description.value), query))
  }

  function Matches(query: string): Product -> bool
  {
    (p: Product) => MatchesQuery(p, query)
  }

  /** Lines 60-68: the query is lower-cased but not trimmed before matching. */
  function BySearch(products: seq<Product>, searchQuery: Option<string>): (r: seq<Product>)
    ensures IsSubsequence(r, products)
    ensures !SearchActive(searchQuery) ==> r == products
    ensures SearchActive(searchQuery) ==>
      forall p :: p in r <==> p in products && MatchesQuery(p, ToLower(searchQuery.value))
    ensures forall p :: multiset(r)[p] == (if !SearchActive(searchQuery) || MatchesQuery(p, ToLower(searchQuery.value)) then multiset(products)[p] else 0)
  {
    SubsequenceOfSelf(products);
    if SearchActive(searchQuery) then Filter(products, Matches(ToLower(searchQuery.value))) else products
  }

  /** A product passes the subcategory stage and then the search stage. */
  predicate PassesBoth(p: Product, selected: string, searchQuery: Option<string>)
  {
    && (selected == AllSubcategories || p.subcategory == Some(selected))
    && (!SearchActive(searchQuery) || MatchesQuery(p, ToLower(searchQuery.value)))
  }

  /** `filteredProducts`, lines 54-68. */
  function FilteredProducts(products: seq<Product>, selected: string, searchQuery: Option<string>): (r: seq<Product>)
    ensures IsSubsequence(r, products)
    ensures products == [] ==> r == []
    ensures forall p :: multiset(r)[p] == if PassesBoth(p, selected, searchQuery) then multiset(products)[p] else 0
  {
    var afterSubcategory := BySubcategory(products, selected);
    var afterSearch := BySearch(afterSubcategory, searchQuery);
    assert IsSubsequence(afterSearch, products) by {
      if selected != AllSubcategories && SearchActive(searchQuery) {
        var both := Both(HasSubcategory(selected), Matches(ToLower(searchQuery.value)));
        FilterTwice(products, HasSubcategory(selected), Matches(ToLower(searchQuery.value)));
        assert IsSubsequence(Filter(products, both), products);
      } else if selected == AllSubcategories && !SearchActive(searchQuery) {
        SubsequenceOfSelf(products);
      }
    }
    afterSearch
  }

  /** With 'all' selected and no query, or an all-whitespace one, every product is shown. */
  lemma NoCriteriaShowsAll(products: seq<Product>, searchQuery: Option<string>)
    requires searchQuery.None? || IsBlank(searchQuery.value)
    ensures FilteredProducts(products, AllSubcategories, searchQuery) == products
  {
    if searchQuery.Some? {
      TrimEmptyIffBlank(searchQuery.value);
    }
  }

  /** An empty or all-whitespace query applies no text filter. */
  lemma BlankQueryNoFilter(products: seq<Product>, query: string)
    requires IsBlank(query)
    ensures BySearch(products, Some(query)) == products
  {
    TrimEmptyIffBlank(query);
  }

  /**
   * A specific subcategory keeps exactly the products that have it, in
   * their original order.
   */
  lemma SubcategoryStageExact(products: seq<Product>, selected: string)
    requires selected != AllSubcategories
    ensures forall p :: p in BySubcategory(products, selected) ==> p.subcategory == Some(selected)
    ensures forall p :: p in products && p.subcategory == Some(selected) ==> p in BySubcategory(products, selected)
    ensures IsSubsequence(BySubcategory(products, selected), products)
  {
  }

  /**
   * A query that is not blank keeps a product exactly when the lower-cased
   * query, spaces included, occurs in the lower-cased name, subcategory or
   * description.
   */
  lemma SearchStageIff(products: seq<Product>, query: string)
    requires !IsBlank(query)
    ensures forall p :: p in BySearch(products, Some(query)) <==>
      p in products && MatchesQuery(p, ToLower(query))
  {
    TrimEmptyIffBlank(query);
  }

  /**
   * A product is visible exactly when it is in the input, passes the
   * subcategory selection and, for an active query, matches it.
   */
  lemma FilteredIff(products: seq<Product>, selected: string, searchQuery: Option<string>)
    ensures forall p :: p in FilteredProducts(products, selected, searchQuery) <==>
      && p in products
      && (selected == AllSubcategories || p.subcategory == Some(selected))
      && (SearchActive(searchQuery) ==> MatchesQuery(p, ToLower(searchQuery.value)))
  {
  }

  /**
   * Because the query is not trimmed before matching, a trailing space makes
   * a product named "Tee" invisible to the query "tee ".
   */
  lemma UntrimmedQueryExample(p: Product)
    requires p.name == "Tee" && p.subcategory == None && p.description == None
    ensures FilteredProducts([p], AllSubcategories, Some("tee ")) == []
  {
    TrailingSpaceQueryIsActive();
    TrailingSpaceMissesName(p);
    MissedQueryHides(p, "tee ");
  }

  lemma TrailingSpaceQueryIsActive()
    ensures SearchActive(Some("tee "))
  {
    assert !IsWhitespace("tee "[0]);
    assert TrimStart("tee ") == "tee ";
  }

  lemma TrailingSpaceMissesName(p: Product)
    requires p.name == "Tee" && p.subcategory == None && p.description == None
    ensures !MatchesQuery(p, ToLower("tee "))
  {
    assert ToLower("tee ") == "tee ";
    assert !Includes(ToLower(p.name), "tee ");
  }

  /** An active query that a lone product does not match hides it. */
  lemma MissedQueryHides(p: Product, query: string)
    requires SearchActive(Some(query)) && !MatchesQuery(p, ToLower(query))
    ensures FilteredProducts([p], AllSubcategories, Some(query)) == []
  {
    assert BySearch([p], Some(query)) == Filter([p], Matches(ToLower(query)));
  }

}
