/**
 * The storefront product grid (`components/product-grid.tsx`): an empty list
 * shows the "No products found" message; otherwise a copy of the list is
 * sorted by id, newest (largest id) first, and shown in that order.
 */
module ProductGrid {
  import opened Wrappers

  /** A product as the grid receives it. */
  datatype GridProduct = GridProduct(
    id: int,
    name: string,
    description: Option<string>,
    price: real,
    image_url: Option<string>,
    brand: Option<string>,
    category: string,
    sizes: string,
    colors: string,
    stock_quantity: real,
    featured: bool)

  /** Ids never increase along the sequence. */
  predicate IdsDescending(s: seq<GridProduct>) {
    forall i, j :: 0 <= i < j < |s| ==> s[i].id >= s[j].id
  }

  /** Put `x` before the first element whose id is not larger, so equal ids keep their order. */
  function Insert(x: GridProduct, t: seq<GridProduct>): (r: seq<GridProduct>)
    ensures multiset(r) == multiset(t) + multiset{x}
    ensures |r| == |t| + 1
  {
    if t == [] || x.id >= t[0].id then [x] + t
    else
      var rest := Insert(x, t[1..]);
      assert multiset(t) == multiset{t[0]} + multiset(t[1..]) by { assert t == [t[0]] + t[1..]; }
      [t[0]] + rest
  }

  /** Inserting into a descending sequence keeps it descending; the head is `x` or the old head. */
  lemma {:induction false} InsertDescending(x: GridProduct, t: seq<GridProduct>)
    requires IdsDescending(t)
    ensures IdsDescending(Insert(x, t))
    ensures Insert(x, t)[0] == x || (t != [] && Insert(x, t)[0] == t[0])
  {
    if t == [] || x.id >= t[0].id {
      ConsDescending(x, t);
    } else {
      TailDescending(t);
      InsertDescending(x, t[1..]);
      var rest := Insert(x, t[1..]);
      assert Insert(x, t) == [t[0]] + rest;
      assert t[0].id >= rest[0].id by { if rest[0] != x { assert rest[0] == t[1]; } }
      ConsDescending(t[0], rest);
    }
  }

  /** `[...products].sort((a, b) => Number(b.id) - Number(a.id))`, a stable sort on the copy. */
  function SortByIdDescending(products: seq<GridProduct>): (r: seq<GridProduct>)
    ensures IdsDescending(r)
    ensures multiset(r) == multiset(products)
    ensures |r| == |products|
  {
    if products == [] then []
    else
      assert products == [products[0]] + products[1..];
      var sorted := SortByIdDescending(products[1..]);
      InsertDescending(products[0], sorted);
      Insert(products[0], sorted)
  }

  lemma TailDescending(s: seq<GridProduct>)
    requires IdsDescending(s) && s != []
    ensures IdsDescending(s[1..])
  {
    forall i, j | 0 <= i < j < |s| - 1 ensures s[1..][i].id >= s[1..][j].id {
      assert s[1..][i] == s[i + 1] && s[1..][j] == s[j + 1];
    }
  }

  /** A head no smaller than the first element of a descending sequence keeps it descending. */
  lemma ConsDescending(h: GridProduct, s: seq<GridProduct>)
    requires IdsDescending(s) && (s == [] || h.id >= s[0].id)
    ensures IdsDescending([h] + s)
  {
    var r := [h] + s;
    forall i, j | 0 <= i < j < |r| ensures r[i].id >= r[j].id {
      if i == 0 && j > 1 { assert s[0].id >= s[j - 1].id; }
    }
  }

  /** What the grid renders. */
  datatype View = NoProductsFound | Grid(cards: seq<GridProduct>)

  /** `ProductGrid`. */
  function Render(products: seq<GridProduct>): (v: View)
    ensures v.NoProductsFound? <==> products == []
    ensures v.Grid? ==> IdsDescending(v.cards) && multiset(v.cards) == multiset(products)
  {
    if |products| == 0 then NoProductsFound else Grid(SortByIdDescending(products))
  }

  /** A list already in descending id order is shown as it is. */
  lemma {:induction false} SortedInputUnchanged(products: seq<GridProduct>)
    requires IdsDescending(products)
    ensures SortByIdDescending(products) == products
  {
    if products != [] {
      var tail := products[1..];
      assert IdsDescending(tail);
      SortedInputUnchanged(tail);
      assert tail == [] || products[0].id >= tail[0].id;
      assert products == [products[0]] + tail;
    }
  }
}
