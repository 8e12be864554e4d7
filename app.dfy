/** The page shell: the current category, the search query and the hero flag. */
module App {

  import opened Options
  import opened Strings
  import opened Catalog
  import opened ProductGrid

  /** `['men', 'women', 'unisex'].includes(category)`. */
  predicate IsSpecificCategory(category: string): (r: bool)
    ensures r <==> category == "men" || category == "women" || category == "unisex"
    ensures r ==> category != "all"
  {
    category in ["men", "women", "unisex"]
  }

  class AppState {

    var currentCategory: string
    var showHero: bool
    var searchQuery: string

    /** `'all'`, hero shown, empty query. */
    constructor ()
      ensures currentCategory == "all" && showHero && searchQuery == ""
    {
      currentCategory := "all";
      showHero := true;
      searchQuery := "";
    }

    /** `handleCategoryChange`: the hero follows 'all', and the query is cleared. */
    method HandleCategoryChange(category: string)
      modifies this
      ensures currentCategory == category && searchQuery == ""
      ensures showHero <==> category == "all"
      ensures ShowsHomeSections() <==> category == "all"
      ensures ShowsCategoryHero() <==> IsSpecificCategory(category)
    {
      currentCategory := category;
      showHero := category == "all";
      searchQuery := "";
    }

    /** `handleSearch`: a query that is not blank hides the hero; a blank one leaves it. */
    method HandleSearch(query: string)
      modifies this
      ensures searchQuery == query && currentCategory == old(currentCategory)
      ensures !IsBlank(query) ==> !showHero && !ShowsHomeSections() && !ShowsCategoryHero()
      ensures IsBlank(query) ==> showHero == old(showHero)
    {
      searchQuery := query;
      TrimEmptyIffBlank(query);
      if Trim(query) != "" {
        showHero := false;
      }
    }

    /** Hero, collections, story, call-to-action and newsletter. */
    predicate ShowsHomeSections(): (r: bool)
      reads this
      ensures r ==> currentCategory == "all" && !IsSpecificCategory(currentCategory)
    {
      showHero && currentCategory == "all"
    }

    /** `isSpecificCategory && !searchQuery`: any non-empty query hides it, spaces too. */
    predicate ShowsCategoryHero(): (r: bool)
      reads this
      ensures r <==> IsSpecificCategory(currentCategory) && searchQuery == ""
      ensures r ==> currentCategory != "all"
    {
      IsSpecificCategory(currentCategory) && !Truthy(searchQuery)
    }

    /** The props the product grid receives. */
    function GridProps(): (r: (string, Option<string>))
      reads this
      ensures r.0 == currentCategory && r.1 == Some(searchQuery)
    {
      (currentCategory, Some(searchQuery))
    }
  }

  /**
   * With a blank query, which is what a category change leaves, the grid
   * applies no text filter: at 'all' it shows every product it fetched.
   */
  lemma BlankQueryGridShowsAll(app: AppState, products: seq<Product>, selected: string)
    requires IsBlank(app.searchQuery)
    ensures FilteredProducts(products, selected, app.GridProps().1) == BySubcategory(products, selected)
    ensures FilteredProducts(products, AllSubcategories, app.GridProps().1) == products
  {
    BlankQueryNoFilter(BySubcategory(products, selected), app.searchQuery);
    BlankQueryNoFilter(products, app.searchQuery);
  }

  /**
   * With a query that is not blank, the grid shows exactly the products of
   * the selected subcategory that match the lower-cased query.
   */
  lemma GridSearchesQuery(app: AppState, products: seq<Product>, selected: string)
    requires !IsBlank(app.searchQuery)
    ensures forall p :: p in FilteredProducts(products, selected, app.GridProps().1) <==>
      && p in products
      && (selected == AllSubcategories || p.subcategory == Some(selected))
      && MatchesQuery(p, ToLower(app.searchQuery))
  {
    TrimEmptyIffBlank(app.searchQuery);
    FilteredIff(products, selected, app.GridProps().1);
  }

  /**
   * A whitespace-only search keeps the home sections on the landing page,
   * yet hides a category's banner, because the query string is non-empty.
   */
  method WhitespaceSearchExample() returns (home: bool, banner: bool)
    ensures home && !banner
  {
    var app := new AppState();
    app.HandleSearch(" ");
    home := app.ShowsHomeSections();
    app.HandleCategoryChange("men");
    app.HandleSearch(" ");
    banner := app.ShowsCategoryHero();
  }

}
