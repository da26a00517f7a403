/** The product catalogue page: the conjunctive filter and the category and brand choices. */
module Products {
  import opened Options
  import opened Records
  import Seqs
  import Text

  /** The page's filter state: search box, category and brand selections, price slider. */
  datatype Filters = Filters(searchQuery: string, category: string, brand: string, minPrice: int, maxPrice: int)

  /** The state the page starts in: the price slider spans 0 to 10000 rupees. */
  const InitialFilters := Filters("", "all", "all", 0, 10000 * PaisePerRupee)

  /** Case-insensitive substring search over name, category and (when present) brand. */
  predicate MatchesSearch(p: Product, query: string) {
    var q := Text.Lower(query);
    || Text.Contains(Text.Lower(p.name), q)
    || Text.Contains(Text.Lower(p.category), q)
    || (p.brand.Some? && Text.Contains(Text.Lower(p.brand.value), q))
  }

  predicate MatchesCategory(p: Product, category: string) {
    category == "all" || p.category == category
  }

  predicate MatchesBrand(p: Product, brand: string) {
    brand == "all" || p.brand == Some(brand)
  }

  /** Inclusive at both ends. */
  predicate MatchesPrice(p: Product, minPrice: int, maxPrice: int) {
    minPrice <= p.price <= maxPrice
  }

  predicate Matches(p: Product, f: Filters) {
    && MatchesSearch(p, f.searchQuery)
    && MatchesCategory(p, f.category)
    && MatchesBrand(p, f.brand)
    && MatchesPrice(p, f.minPrice, f.maxPrice)
  }

  function MatchesFilters(f: Filters): Product -> bool {
    p => Matches(p, f)
  }

  /** `filteredProducts`: the products matching every filter, in the catalogue's order. */
  function FilteredProducts(products: seq<Product>, f: Filters): (r: seq<Product>)
    ensures forall p :: p in r <==> p in products && Matches(p, f)
    ensures Seqs.IsSubsequence(r, products)
  {
    Seqs.FilterIsSubsequence(products, MatchesFilters(f));
    Seqs.Filter(products, MatchesFilters(f))
  }

  /** An empty search box matches every product. */
  lemma EmptySearchMatchesAll(p: Product)
    ensures MatchesSearch(p, "")
  {
    assert Text.Lower("") == "";
    Text.EmptyIsContained(Text.Lower(p.name));
  }

  /** Lower-casing the query first changes nothing: the search ignores the case of the query. */
  lemma SearchIgnoresQueryCase(p: Product, query: string)
    ensures MatchesSearch(p, Text.Lower(query)) == MatchesSearch(p, query)
  {
    assert Text.Lower(Text.Lower(query)) == Text.Lower(query);
  }

  /** With the initial filters a product is shown iff its price lies within 0 to 10000 rupees. */
  lemma InitialFiltersKeepPriceRange(products: seq<Product>)
    ensures forall p :: p in FilteredProducts(products, InitialFilters) <==> p in products && 0 <= p.price <= 1000000
  {
    forall p | p in products {
      EmptySearchMatchesAll(p);
    }
  }

  function CategoryColumn(products: seq<Product>): seq<string> {
    seq(|products|, i requires 0 <= i < |products| => products[i].category)
  }

  /** `categories`: each product category once, in the order of first appearance. */
  function Categories(products: seq<Product>): (r: seq<string>)
    ensures Seqs.NoDuplicates(r)
    ensures forall c :: c in r <==> exists i :: 0 <= i < |products| && products[i].category == c
  {
    var column := CategoryColumn(products);
    assert forall i :: 0 <= i < |products| ==> column[i] == products[i].category;
    Seqs.Dedup(column)
  }

  /** The brand column with missing and empty brands dropped (`filter(Boolean)`). */
  function BrandColumn(products: seq<Product>): (r: seq<string>)
    ensures forall b :: b in r <==> b != "" && exists i :: 0 <= i < |products| && products[i].brand == Some(b)
  {
    if products == [] then []
    else
      var rest := BrandColumn(products[1..]);
      assert forall i :: 0 < i < |products| ==> products[i] == products[1..][i - 1];
      if Truthy(products[0].brand) then [products[0].brand.value] + rest else rest
  }

  /** `brands`: each non-empty brand once, in the order of first appearance. */
  function Brands(products: seq<Product>): (r: seq<string>)
    ensures Seqs.NoDuplicates(r)
    ensures forall b :: b in r <==> b != "" && exists i :: 0 <= i < |products| && products[i].brand == Some(b)
  {
    Seqs.Dedup(BrandColumn(products))
  }
}
