/**
 * The filter composer: `filterProducts` merges its arguments into the current filter
 * and recomputes the visible list from the whole catalog, narrowing it by category,
 * then culture, then a case-insensitive search of name and description.
 */
module Filtering {
  import opened Optional
  import opened Seqs
  import opened Text
  import opened Entities

  /** An optional argument: omitted (`undefined`) or passed with a value. */
  datatype Arg<T> = Omitted | Passed(value: T)

  /** The value passed, or the previous value when the argument was omitted. */
  function Pick<T>(a: Arg<T>, previous: T): T {
    if a.Passed? then a.value else previous
  }

  /** The new filter: each argument that is not `undefined` replaces its field. */
  function MergeFilter(f: ProductFilter, category: Arg<Option<string>>, culture: Arg<Option<string>>,
                       searchQuery: Arg<string>): (r: ProductFilter)
    ensures category.Omitted? ==> r.category == f.category
    ensures category.Passed? ==> r.category == category.value
    ensures culture.Omitted? ==> r.culture == f.culture
    ensures culture.Passed? ==> r.culture == culture.value
    ensures searchQuery.Omitted? ==> r.searchQuery == f.searchQuery
    ensures searchQuery.Passed? ==> r.searchQuery == searchQuery.value
  {
    ProductFilter(Pick(category, f.category), Pick(culture, f.culture), Pick(searchQuery, f.searchQuery))
  }

  /** The category constraint, when the filter's category is truthy. */
  predicate CategoryOk(f: ProductFilter, p: Product) {
    Truthy(f.category) ==> p.category == f.category.value
  }

  /** The culture constraint, when the filter's culture is truthy. */
  predicate CultureOk(f: ProductFilter, p: Product) {
    Truthy(f.culture) ==> p.culture == f.culture.value
  }

  /** The search constraint, when the query is non-empty: name or description contains it, ignoring case. */
  predicate SearchOk(f: ProductFilter, p: Product) {
    f.searchQuery != "" ==> Mentioned(Lower(f.searchQuery), p)
  }

  /** The lower-cased name or description of `p` contains `query`. */
  predicate Mentioned(query: string, p: Product) {
    Includes(Lower(p.name), query) || Includes(Lower(p.description), query)
  }

  /** A product is visible under `f` when it passes every active constraint. */
  predicate Matches(f: ProductFilter, p: Product) {
    CategoryOk(f, p) && CultureOk(f, p) && SearchOk(f, p)
  }

  function MatchesFn(f: ProductFilter): Product -> bool {
    (p: Product) => Matches(f, p)
  }

  function CategoryIs(c: string): Product -> bool {
    (p: Product) => p.category == c
  }

  function CultureIs(c: string): Product -> bool {
    (p: Product) => p.culture == c
  }

  function Mentions(query: string): Product -> bool {
    (p: Product) => Mentioned(query, p)
  }

  /**
   * The recomputation in `filterProducts`: starting from the whole catalog, each truthy
   * field narrows the list in turn. The result is the catalog filtered by the
   * conjunction of the active constraints.
   */
  function Visible(products: seq<Product>, f: ProductFilter): (r: seq<Product>)
    ensures r == Filter(products, MatchesFn(f))
    ensures Subseq(r, products)
    ensures forall i :: 0 <= i < |r| ==> Matches(f, r[i]) && r[i] in products
    ensures forall i :: 0 <= i < |products| && Matches(f, products[i]) ==> products[i] in r
    ensures !HasConstraint(f) ==> r == products
  {
    var byCategory := if Truthy(f.category) then Filter(products, CategoryIs(f.category.value)) else products;
    var byCulture := if Truthy(f.culture) then Filter(byCategory, CultureIs(f.culture.value)) else byCategory;
    var r := if f.searchQuery != "" then Filter(byCulture, Mentions(Lower(f.searchQuery))) else byCulture;
    VisibleIsConjunction(products, f, byCategory, byCulture, r);
    FilterIsSubseq(products, MatchesFn(f));
    r
  }

  /** The three successive narrowing steps amount to one filter by `Matches`. */
  lemma VisibleIsConjunction(products: seq<Product>, f: ProductFilter,
                             byCategory: seq<Product>, byCulture: seq<Product>, r: seq<Product>)
    requires byCategory == if Truthy(f.category) then Filter(products, CategoryIs(f.category.value)) else products
    requires byCulture == if Truthy(f.culture) then Filter(byCategory, CultureIs(f.culture.value)) else byCategory
    requires r == if f.searchQuery != "" then Filter(byCulture, Mentions(Lower(f.searchQuery))) else byCulture
    ensures r == Filter(products, MatchesFn(f))
    ensures !HasConstraint(f) ==> r == products
  {
    var cat := (p: Product) => CategoryOk(f, p);
    var cul := (p: Product) => CultureOk(f, p);
    var search := (p: Product) => SearchOk(f, p);
    var catCul := (p: Product) => CategoryOk(f, p) && CultureOk(f, p);
    if Truthy(f.category) {
      FilterExt(products, CategoryIs(f.category.value), cat);
    } else {
      FilterKeepsAll(products, cat);
    }
    if Truthy(f.culture) {
      FilterExt(byCategory, CultureIs(f.culture.value), cul);
    } else {
      FilterKeepsAll(byCategory, cul);
    }
    if f.searchQuery != "" {
      FilterExt(byCulture, Mentions(Lower(f.searchQuery)), search);
    } else {
      FilterKeepsAll(byCulture, search);
    }
    FilterConj(products, cat, cul, catCul);
    FilterConj(products, catCul, search, MatchesFn(f));
  }

  /** `filterProducts(category, culture, searchQuery)`: only the filter and the filtered view change. */
  function FilterProducts(s: State, category: Arg<Option<string>>, culture: Arg<Option<string>>,
                          searchQuery: Arg<string>): (r: State)
    ensures r.productFilter == MergeFilter(s.productFilter, category, culture, searchQuery)
    ensures r.filteredProducts == Filter(s.products, MatchesFn(r.productFilter))
    ensures Subseq(r.filteredProducts, s.products)
    ensures r == s.(productFilter := r.productFilter, filteredProducts := r.filteredProducts)
  {
    var f := MergeFilter(s.productFilter, category, culture, searchQuery);
    s.(productFilter := f, filteredProducts := Visible(s.products, f))
  }

  /**
   * An omitted argument keeps the previous field; a passed one replaces it, so that
   * `null` or `''` clears that constraint.
   */
  lemma MergeFilterFields(f: ProductFilter, category: Arg<Option<string>>, culture: Arg<Option<string>>,
                          searchQuery: Arg<string>)
    ensures category == Omitted ==> MergeFilter(f, category, culture, searchQuery).category == f.category
    ensures culture == Omitted ==> MergeFilter(f, category, culture, searchQuery).culture == f.culture
    ensures searchQuery == Omitted ==> MergeFilter(f, category, culture, searchQuery).searchQuery == f.searchQuery
    ensures category == Passed(None) || category == Passed(Some("")) ==>
      !Truthy(MergeFilter(f, category, culture, searchQuery).category)
    ensures culture == Passed(None) || culture == Passed(Some("")) ==>
      !Truthy(MergeFilter(f, category, culture, searchQuery).culture)
    ensures searchQuery == Passed("") ==> MergeFilter(f, category, culture, searchQuery).searchQuery == ""
  {
  }

  /** With every constraint cleared, the filtered view is the whole catalog. */
  lemma ClearedFilterShowsAll(s: State, category: Arg<Option<string>>, culture: Arg<Option<string>>,
                              searchQuery: Arg<string>)
    requires !HasConstraint(MergeFilter(s.productFilter, category, culture, searchQuery))
    ensures FilterProducts(s, category, culture, searchQuery).filteredProducts == s.products
  {
    var f := MergeFilter(s.productFilter, category, culture, searchQuery);
    assert Visible(s.products, f) == s.products;
  }

  /** Calling `filterProducts` with no arguments re-applies the current filter to the catalog. */
  lemma NoArgumentsReapply(s: State)
    ensures FilterProducts(s, Omitted, Omitted, Omitted).productFilter == s.productFilter
    ensures FilterProducts(s, Omitted, Omitted, Omitted).filteredProducts == Filter(s.products, MatchesFn(s.productFilter))
  {
  }

  /** The search ignores the case of the query. */
  lemma SearchIgnoresQueryCase(f: ProductFilter, p: Product)
    ensures Matches(f, p) == Matches(f.(searchQuery := Lower(f.searchQuery)), p)
  {
    LowerIdempotent(f.searchQuery);
    assert f.searchQuery != "" <==> Lower(f.searchQuery) != "";
  }

  /** Re-filtering the visible list with the same filter changes nothing. */
  lemma VisibleIdempotent(products: seq<Product>, f: ProductFilter)
    ensures Visible(Visible(products, f), f) == Visible(products, f)
  {
    FilterIdempotent(products, MatchesFn(f));
  }

  /** The category walk-through: a featured music product and a clothing product. */
  lemma CategoryScenario(a: Product, b: Product)
    requires a.category == "music" && a.featured == Some(true)
    requires b.category == "clothing" && b.featured == Some(false)
    ensures Visible([a, b], ProductFilter(Some("music"), None, "")) == [a]
  {
    var f := ProductFilter(Some("music"), None, "");
    assert Matches(f, a) && !Matches(f, b);
    assert [a, b][1..] == [b] && [b][1..] == [];
    assert Filter([b], MatchesFn(f)) == [];
    assert Filter([a, b], MatchesFn(f)) == [a] + Filter([b], MatchesFn(f));
  }
}
