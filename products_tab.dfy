/**
 * The admin product list's filter (`components/admin/products-tab.tsx`): a
 * product is shown when its lower-cased name, or its lower-cased brand if it
 * has one, contains the lower-cased search text, and the selected category is
 * "all" or its `category_id`.
 */
module ProductsTab {
  import opened Wrappers
  import opened Text
  import Seqs

  /** A product as the admin products tab receives it. */
  datatype AdminProduct = AdminProduct(
    id: string,
    name: string,
    description: Option<string>,
    price: real,
    image_url: Option<string>,
    brand: Option<string>,
    stock_quantity: real,
    is_active: bool,
    category_id: string)

  /** `matchesSearch`: an absent brand (`brand?.…` is `undefined`) cannot match. */
  predicate MatchesSearch(p: AdminProduct, searchTerm: string) {
    Contains(ToLower(p.name), ToLower(searchTerm))
    || (p.brand.Some? && Contains(ToLower(p.brand.value), ToLower(searchTerm)))
  }

  /** `matchesCategory`. */
  predicate MatchesCategory(p: AdminProduct, selectedCategory: string) {
    selectedCategory == "all" || p.category_id == selectedCategory
  }

  predicate Shown(p: AdminProduct, searchTerm: string, selectedCategory: string) {
    MatchesSearch(p, searchTerm) && MatchesCategory(p, selectedCategory)
  }

  /** `filteredProducts`. */
  function FilteredProducts(products: seq<AdminProduct>, searchTerm: string, selectedCategory: string): (r: seq<AdminProduct>)
    ensures forall k :: 0 <= k < |r| ==> Shown(r[k], searchTerm, selectedCategory)
  {
    Seqs.Filter(products, (p: AdminProduct) => Shown(p, searchTerm, selectedCategory))
  }

  /** The result keeps the list's order and holds a product exactly when it is in the list and passes both tests. */
  lemma FilteredProductsExactly(products: seq<AdminProduct>, searchTerm: string, selectedCategory: string, p: AdminProduct)
    ensures Seqs.IsSubseq(FilteredProducts(products, searchTerm, selectedCategory), products)
    ensures p in FilteredProducts(products, searchTerm, selectedCategory) <==>
              p in products && MatchesSearch(p, searchTerm) && MatchesCategory(p, selectedCategory)
  {
    var keep := (q: AdminProduct) => Shown(q, searchTerm, selectedCategory);
    Seqs.FilterIsSubseq(products, keep);
    Seqs.FilterMembership(products, keep, p);
  }

  /** The initial state, an empty search in "all", shows every product. */
  lemma InitialShowsAll(products: seq<AdminProduct>)
    ensures FilteredProducts(products, "", "all") == products
  {
    forall k | 0 <= k < |products| ensures Shown(products[k], "", "all") {
      ContainsEmpty(ToLower(products[k].name));
    }
    Seqs.FilterKeepsAll(products, (q: AdminProduct) => Shown(q, "", "all"));
  }

  /** Searches that lower-case alike filter alike; in particular the search's own case does not matter. */
  lemma SearchCaseInsensitive(products: seq<AdminProduct>, s1: string, s2: string, selectedCategory: string)
    ensures ToLower(s1) == ToLower(s2) ==>
              FilteredProducts(products, s1, selectedCategory) == FilteredProducts(products, s2, selectedCategory)
    ensures FilteredProducts(products, ToUpper(s1), selectedCategory) == FilteredProducts(products, s1, selectedCategory)
  {
    LowerOfUpper(s1);
    Seqs.FilterCongruent(products, (q: AdminProduct) => Shown(q, s1, selectedCategory),
                         (q: AdminProduct) => Shown(q, ToUpper(s1), selectedCategory));
    if ToLower(s1) == ToLower(s2) {
      Seqs.FilterCongruent(products, (q: AdminProduct) => Shown(q, s1, selectedCategory),
                           (q: AdminProduct) => Shown(q, s2, selectedCategory));
    }
  }

  /** The case of the product's name and brand does not matter either. */
  lemma ProductCaseInsensitive(p: AdminProduct, searchTerm: string)
    ensures MatchesSearch(p.(name := ToUpper(p.name)), searchTerm) == MatchesSearch(p, searchTerm)
    ensures p.brand.Some? ==>
              MatchesSearch(p.(brand := Some(ToUpper(p.brand.value))), searchTerm) == MatchesSearch(p, searchTerm)
  {
    LowerOfUpper(p.name);
    if p.brand.Some? {
      LowerOfUpper(p.brand.value);
    }
  }

  /** A product without a brand is found by its name alone; a non-empty search never finds it by a brand it lacks. */
  lemma NoBrandMatchesByName(p: AdminProduct, searchTerm: string)
    requires p.brand.None?
    ensures MatchesSearch(p, searchTerm) <==> Contains(ToLower(p.name), ToLower(searchTerm))
    ensures |searchTerm| > |p.name| ==> !MatchesSearch(p, searchTerm)
  {
    ContainsIffOccurs(ToLower(p.name), ToLower(searchTerm));
  }
}
