/**
 * The storefront's product filter (`app/page.tsx`): a category selection,
 * where "Todos" selects all, followed by a case-insensitive substring search
 * over the title and the categories that applies only to a non-blank query.
 */
module HomePage {
  import Lists
  import Text
  import opened ProductsContext

  /** The category selection that applies no category filter. */
  const AllCategories := "Todos"

  function InCategory(category: string): Product -> bool {
    (p: Product) => category in p.categories
  }

  /** Some category of `p`, lower-cased, contains `query`. */
  predicate SomeCategoryIncludes(p: Product, query: string) {
    exists i | 0 <= i < |p.categories| :: Text.Includes(Text.Lower(p.categories[i]), query)
  }

  /** The search test for an already lower-cased query. */
  function MatchesQuery(query: string): Product -> bool {
    (p: Product) => Text.Includes(Text.Lower(p.title), query) || SomeCategoryIncludes(p, query)
  }

  /** `p` passes both filters; the search uses the lower-cased, untrimmed query. */
  predicate Kept(p: Product, category: string, searchQuery: string) {
    && (category == AllCategories || category in p.categories)
    && (Text.IsBlank(searchQuery) || MatchesQuery(Text.Lower(searchQuery))(p))
  }

  /** The category stage. */
  function ByCategory(products: seq<Product>, category: string): (r: seq<Product>)
    ensures Lists.IsSubsequence(r, products)
    ensures forall i :: 0 <= i < |r| ==> r[i] in products && (category == AllCategories || category in r[i].categories)
    ensures forall i :: 0 <= i < |products| && (category == AllCategories || category in products[i].categories)
              ==> products[i] in r
    ensures forall i :: 0 <= i < |products| && (category == AllCategories || category in products[i].categories)
              ==> multiset(r)[products[i]] == multiset(products)[products[i]]
    ensures category == AllCategories ==> r == products
  {
    if category != AllCategories then
      Lists.FilterCounts(products, InCategory(category));
      Lists.Filter(products, InCategory(category))
    else
      Lists.SubsequenceRefl(products);
      products
  }

  /** `filteredProducts`: an order-preserving subsequence of `products` holding exactly the kept ones. */
  function FilterProducts(products: seq<Product>, category: string, searchQuery: string): (r: seq<Product>)
    ensures Lists.IsSubsequence(r, products)
    ensures forall i :: 0 <= i < |r| ==> Kept(r[i], category, searchQuery)
    ensures forall i :: 0 <= i < |products| && Kept(products[i], category, searchQuery) ==> products[i] in r
    ensures forall i :: 0 <= i < |products| && Kept(products[i], category, searchQuery) ==>
              multiset(r)[products[i]] == multiset(products)[products[i]]
    ensures category == AllCategories && Text.IsBlank(searchQuery) ==> r == products
  {
    var filtered := ByCategory(products, category);
    Text.TrimEmptyIffBlank(searchQuery);
    if Text.Trim(searchQuery) != "" then
      var r := Lists.Filter(filtered, MatchesQuery(Text.Lower(searchQuery)));
      Lists.SubsequenceTrans(r, filtered, products);
      SearchStage(products, filtered, r, category, searchQuery);
      SearchStageCounts(products, filtered, r, category, searchQuery);
      r
    else
      filtered
  }

  lemma SearchStage(products: seq<Product>, filtered: seq<Product>, r: seq<Product>, category: string, searchQuery: string)
    requires !Text.IsBlank(searchQuery)
    requires filtered == ByCategory(products, category)
    requires r == Lists.Filter(filtered, MatchesQuery(Text.Lower(searchQuery)))
    ensures forall i :: 0 <= i < |r| ==> Kept(r[i], category, searchQuery)
    ensures forall i :: 0 <= i < |products| && Kept(products[i], category, searchQuery) ==> products[i] in r
  {
    var q := Text.Lower(searchQuery);
    forall i | 0 <= i < |r| ensures Kept(r[i], category, searchQuery) {
      var j :| 0 <= j < |filtered| && filtered[j] == r[i];
      assert MatchesQuery(q)(r[i]);
    }
    forall i | 0 <= i < |products| && Kept(products[i], category, searchQuery) ensures products[i] in r {
      var j :| 0 <= j < |filtered| && filtered[j] == products[i];
      assert MatchesQuery(q)(filtered[j]);
    }
  }

  /** The search stage keeps every kept product as often as the catalog lists it. */
  lemma SearchStageCounts(products: seq<Product>, filtered: seq<Product>, r: seq<Product>, category: string, searchQuery: string)
    requires !Text.IsBlank(searchQuery)
    requires filtered == ByCategory(products, category)
    requires r == Lists.Filter(filtered, MatchesQuery(Text.Lower(searchQuery)))
    ensures forall i :: 0 <= i < |products| && Kept(products[i], category, searchQuery) ==>
              multiset(r)[products[i]] == multiset(products)[products[i]]
  {
    var q := Text.Lower(searchQuery);
    Lists.FilterCounts(filtered, MatchesQuery(q));
    forall i | 0 <= i < |products| && Kept(products[i], category, searchQuery)
      ensures multiset(r)[products[i]] == multiset(products)[products[i]]
    {
      var x := products[i];
      assert multiset(filtered)[x] == multiset(products)[x];
      var j :| 0 <= j < |filtered| && filtered[j] == x;
      assert MatchesQuery(q)(filtered[j]);
      assert multiset(r)[filtered[j]] == multiset(filtered)[filtered[j]];
    }
  }

  /** The search stage ignores case: a query and its lower-cased form keep the same products. */
  lemma SearchIgnoresQueryCase(products: seq<Product>, category: string, searchQuery: string)
    ensures FilterProducts(products, category, Text.Lower(searchQuery)) == FilterProducts(products, category, searchQuery)
  {
    var q := Text.Lower(searchQuery);
    assert Text.Lower(q) == q by {
      assert forall i :: 0 <= i < |q| ==> Text.Lower(q)[i] == q[i];
    }
    assert Text.IsBlank(q) <==> Text.IsBlank(searchQuery) by {
      assert forall i :: 0 <= i < |q| ==> (Text.IsSpace(q[i]) <==> Text.IsSpace(searchQuery[i]));
    }
    Text.TrimEmptyIffBlank(q);
    Text.TrimEmptyIffBlank(searchQuery);
  }
}
