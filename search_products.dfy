/**
 * The buyer's product search (src/pages/buyer-dashboard/SearchProducts.tsx):
 * the loaded products, the free-text query and category filter that narrow
 * them, and the saved flag a buyer toggles on a product.
 */
module SearchProducts {
  import opened Wrappers
  import opened JsStrings
  import opened Seqs
  import opened Browser
  import opened Api
  import opened Marketplace

  const AllCategories := "all"

  /** The query occurs, ignoring case, in the title, the description or the manufacturer's name. */
  predicate MatchesQuery(p: Product, query: string)
    ensures query == [] ==> MatchesQuery(p, query)
    ensures MatchesQuery(p, query) ==>
              |query| <= |p.title| || |query| <= |p.description| || |query| <= |p.manufacturer.companyName|
  {
    var q := ToLower(query);
    Contains(ToLower(p.title), q) || Contains(ToLower(p.description), q) || Contains(ToLower(p.manufacturer.companyName), q)
  }

  /** The product's category equals the chosen one, ignoring case. */
  predicate MatchesCategory(p: Product, category: string)
    ensures p.category == category ==> MatchesCategory(p, category)
    ensures MatchesCategory(p, category) <==>
              |p.category| == |category| && forall k :: 0 <= k < |category| ==> LowerChar(p.category[k]) == LowerChar(category[k])
  {
    ToLower(p.category) == ToLower(category)
  }

  /** The test the query filter applies. */
  function QueryTest(query: string): Product -> bool {
    p => MatchesQuery(p, query)
  }

  /** The test the category filter applies. */
  function CategoryTest(category: string): Product -> bool {
    p => MatchesCategory(p, category)
  }

  /** A product is shown when it passes every filter that is switched on. */
  predicate Shown(p: Product, query: string, category: string) {
    (query == "" || MatchesQuery(p, query)) && (category == AllCategories || MatchesCategory(p, category))
  }

  /** The test both filters together apply. */
  function ShownTest(query: string, category: string): Product -> bool {
    p => Shown(p, query, category)
  }

  /**
   * What `filterProducts` computes: the products that pass the query filter
   * (when the query is non-empty) and then the category filter (unless
   * "all"). That is one filter by `Shown`: every shown product, as often as
   * it is listed, in its order, and nothing else.
   */
  function Filtered(products: seq<Product>, query: string, category: string): (r: seq<Product>)
    ensures r == Filter(ShownTest(query, category), products)
    ensures query == "" && category == AllCategories ==> r == products
  {
    var byQuery := if query != "" then Filter(QueryTest(query), products) else products;
    var byCategory := if category != AllCategories then Filter(CategoryTest(category), byQuery) else byQuery;
    var shown := ShownTest(query, category);
    if query != "" && category != AllCategories then
      FilterCompose(QueryTest(query), CategoryTest(category), shown, products);
      byCategory
    else if query != "" then
      FilterExtensional(QueryTest(query), shown, products);
      byCategory
    else if category != AllCategories then
      FilterExtensional(CategoryTest(category), shown, products);
      byCategory
    else
      FilterKeepsAll(shown, products);
      byCategory
  }

  /**
   * The page shows every product that passes, as often as it is listed and in
   * its order, and nothing else.
   */
  lemma FilteredShowsExactly(products: seq<Product>, query: string, category: string)
    ensures var r := Filtered(products, query, category);
            && IsSubsequence(r, products)
            && (forall k :: 0 <= k < |r| ==> Shown(r[k], query, category))
            && (forall x :: x in products ==> multiset(r)[x] == if Shown(x, query, category) then multiset(products)[x] else 0)
  {
  }

  /** Lower-casing a second time changes nothing. */
  lemma ToLowerIdempotent(s: string)
    ensures ToLower(ToLower(s)) == ToLower(s)
  {
  }

  /** The search ignores case: a query and its lower-case form select the same products. */
  lemma QueryIgnoresCase(products: seq<Product>, query: string, category: string)
    ensures Filtered(products, ToLower(query), category) == Filtered(products, query, category)
  {
    ToLowerIdempotent(query);
    assert (ToLower(query) == "") == (query == "");
    if query != "" {
      FilterExtensional(QueryTest(ToLower(query)), QueryTest(query), products);
    }
  }

  /** A product is kept when the query occurs in one of its texts at some position. */
  lemma MatchesQueryMeansOccurs(p: Product, query: string)
    ensures MatchesQuery(p, query) <==>
            var q := ToLower(query);
            (exists i :: OccursAt(ToLower(p.title), q, i))
            || (exists i :: OccursAt(ToLower(p.description), q, i))
            || (exists i :: OccursAt(ToLower(p.manufacturer.companyName), q, i))
  {
    var q := ToLower(query);
    ContainsIffOccurs(ToLower(p.title), q);
    ContainsIffOccurs(ToLower(p.description), q);
    ContainsIffOccurs(ToLower(p.manufacturer.companyName), q);
  }

  /** Freshly loaded products all start unsaved. */
  function MarkUnsaved(products: seq<Product>): (r: seq<Product>)
    ensures |r| == |products|
    ensures forall k :: 0 <= k < |r| ==> !r[k].isSaved && r[k] == products[k].(isSaved := false)
  {
    seq(|products|, k requires 0 <= k < |products| => products[k].(isSaved := false))
  }

  /** Every product with the given id gets the saved flag `saved`; the others are untouched. */
  function SetSaved(products: seq<Product>, id: string, saved: bool): (r: seq<Product>)
    ensures |r| == |products|
    ensures forall k :: 0 <= k < |r| && products[k].id == id ==> r[k] == products[k].(isSaved := saved)
    ensures forall k :: 0 <= k < |r| && products[k].id != id ==> r[k] == products[k]
  {
    seq(|products|, k requires 0 <= k < |products| =>
      if products[k].id == id then products[k].(isSaved := saved) else products[k])
  }

  /**
   * What `handleSaveProduct` does to the list: the first product with the id
   * decides the new flag (its negation), which every product with that id
   * receives; an unknown id changes nothing.
   */
  function ToggleSaved(products: seq<Product>, id: string): (r: seq<Product>)
    ensures (forall k :: 0 <= k < |products| ==> products[k].id != id) ==> r == products
    ensures |r| == |products|
    ensures forall k :: 0 <= k < |r| && products[k].id != id ==> r[k] == products[k]
    ensures forall j, k :: FirstMatchAt((p: Product) => p.id == id, products, j) && 0 <= k < |r| && products[k].id == id
              ==> r[k] == products[k].(isSaved := !products[j].isSaved)
  {
    match Find((p: Product) => p.id == id, products)
    case None => products
    case Some(current) => SetSaved(products, id, !current.isSaved)
  }

  /** All products carrying the id share one saved flag. */
  predicate UniformSaved(products: seq<Product>, id: string) {
    forall j, k :: 0 <= j < |products| && 0 <= k < |products| && products[j].id == id && products[k].id == id
      ==> products[j].isSaved == products[k].isSaved
  }

  /** With the first product carrying the id at `k`, toggling sets that product's negated flag on every product with the id. */
  lemma ToggleSavedAt(products: seq<Product>, id: string, k: int)
    requires FirstMatchAt((p: Product) => p.id == id, products, k)
    ensures ToggleSaved(products, id) == SetSaved(products, id, !products[k].isSaved)
  {
    var f := (p: Product) => p.id == id;
    var found := Find(f, products);
    var k2 :| FirstMatchAt(f, products, k2) && products[k2] == found.value;
    assert !(k2 < k) && !(k < k2);
  }

  /** Setting the flag of an id to the opposite of its uniform value and back gives the list back. */
  lemma SetSavedTwice(products: seq<Product>, id: string, k: int)
    requires UniformSaved(products, id) && 0 <= k < |products| && products[k].id == id
    ensures SetSaved(SetSaved(products, id, !products[k].isSaved), id, products[k].isSaved) == products
  {
    var twice := SetSaved(SetSaved(products, id, !products[k].isSaved), id, products[k].isSaved);
    forall j | 0 <= j < |products|
      ensures twice[j] == products[j]
    {
      if products[j].id == id {
        assert products[j].isSaved == products[k].isSaved;
      }
    }
  }

  /** Saving and then unsaving the same product gives the list back, when the id's products agree. */
  lemma {:induction false} ToggleSavedTwice(products: seq<Product>, id: string)
    requires UniformSaved(products, id)
    ensures ToggleSaved(ToggleSaved(products, id), id) == products
  {
    var f := (p: Product) => p.id == id;
    match Find(f, products)
    case None =>
    case Some(current) =>
      var k :| FirstMatchAt(f, products, k) && products[k] == current;
      ToggleSavedAt(products, id, k);
      var once := SetSaved(products, id, !current.isSaved);
      assert FirstMatchAt(f, once, k) by {
        assert forall j :: 0 <= j < |once| ==> once[j].id == products[j].id;
      }
      ToggleSavedAt(once, id, k);
      SetSavedTwice(products, id, k);
  }

  class SearchPage {
    /** The browser window the API client reads the token from, and signs out of on a 401. */
    const window: Window
    var searchQuery: string
    var category: string
    var products: seq<Product>
    var filteredProducts: seq<Product>
    var loading: bool
    var savingProduct: Option<string>

    /** The list on screen is the filter of the current products, query and category. */
    predicate Valid()
      reads this
    {
      filteredProducts == Filtered(products, searchQuery, category)
    }

    constructor(window: Window)
      ensures this.window == window
      ensures searchQuery == "" && category == AllCategories && products == [] && filteredProducts == []
      ensures loading && savingProduct.None?
      ensures Valid()
    {
      this.window := window;
      searchQuery := "";
      category := AllCategories;
      products := [];
      filteredProducts := [];
      loading := true;
      savingProduct := None;
    }

    /** `filterProducts`, which the page reruns whenever the query, the category or the products change. */
    method FilterProducts()
      modifies this
      ensures filteredProducts == Filtered(products, searchQuery, category)
      ensures products == old(products) && searchQuery == old(searchQuery) && category == old(category)
      ensures loading == old(loading) && savingProduct == old(savingProduct)
    {
      var filtered := products;
      if searchQuery != "" {
        filtered := Filter(QueryTest(searchQuery), filtered);
      }
      if category != AllCategories {
        filtered := Filter(CategoryTest(category), filtered);
      }
      filteredProducts := filtered;
    }

    method SetSearchQuery(query: string)
      modifies this
      ensures searchQuery == query && Valid()
      ensures products == old(products) && category == old(category)
      ensures loading == old(loading) && savingProduct == old(savingProduct)
    {
      searchQuery := query;
      FilterProducts();
    }

    method SetCategory(choice: string)
      modifies this
      ensures category == choice && Valid()
      ensures products == old(products) && searchQuery == old(searchQuery)
      ensures loading == old(loading) && savingProduct == old(savingProduct)
    {
      category := choice;
      FilterProducts();
    }

    /**
     * `fetchProducts`: a reply's list (empty when missing) replaces the
     * products, all unsaved; a failed call keeps them. Loading ends false.
     */
    method FetchProducts(reply: Reply<Option<seq<Product>>>)
      modifies this, window
      ensures window.Snapshot() == AfterReply(old(window.Snapshot()), reply)
      ensures reply.Success? ==> products == MarkUnsaved(OrEmpty(reply.data))
      ensures reply.Failure? ==> products == old(products)
      ensures !loading && Valid()
      ensures searchQuery == old(searchQuery) && category == old(category) && savingProduct == old(savingProduct)
    {
      loading := true;
      var response, _ := Send(window, ProductsList, reply);
      if response.Success? {
        products := MarkUnsaved(OrEmpty(response.data));
      }
      loading := false;
      FilterProducts();
    }

    /** `handleSaveProduct(productId)`: toggles the product's saved flag; `savingProduct` ends cleared. */
    method HandleSaveProduct(productId: string)
      modifies this
      ensures products == ToggleSaved(old(products), productId)
      ensures savingProduct.None? && Valid()
      ensures searchQuery == old(searchQuery) && category == old(category) && loading == old(loading)
    {
      savingProduct := Some(productId);
      var current := Find((p: Product) => p.id == productId, products);
      if current.Some? {
        var newSavedState := !current.value.isSaved;
        products := SetSaved(products, productId, newSavedState);
      }
      savingProduct := None;
      FilterProducts();
    }
  }
}
