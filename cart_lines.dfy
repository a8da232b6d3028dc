/**
 * The cart operations shared, line for line, by `components/cart-context.tsx`
 * and `hooks/use-cart.ts`: a cart is a list of lines keyed by
 * `(id, size, color)`; adding merges into an existing line, removing filters
 * the key out, updating to a non-positive quantity removes, and the total is
 * a left fold over the lines.
 */
module CartLines {
  import opened Wrappers
  import Seqs

  /** `CartItem`. */
  datatype CartItem = CartItem(
    id: string,
    name: string,
    price: real,
    image_url: Option<string>,
    size: string,
    color: string,
    quantity: real)

  /** The line's key is `(id, size, color)`. */
  predicate HasKey(item: CartItem, id: string, size: string, color: string) {
    item.id == id && item.size == size && item.color == color
  }

  predicate SameKey(a: CartItem, b: CartItem) {
    HasKey(a, b.id, b.size, b.color)
  }

  /** At most one line per key. */
  predicate UniqueKeys(items: seq<CartItem>) {
    forall i, j :: 0 <= i < j < |items| ==> !SameKey(items[i], items[j])
  }

  /** The `map` callback of `addItem`: the line with the new item's key gets its quantity added. */
  function MergeLine(item: CartItem, newItem: CartItem): CartItem {
    if SameKey(item, newItem) then item.(quantity := item.quantity + newItem.quantity) else item
  }

  function MergeAll(items: seq<CartItem>, newItem: CartItem): (r: seq<CartItem>)
    ensures |r| == |items| && forall k :: 0 <= k < |items| ==> r[k] == MergeLine(items[k], newItem)
  {
    seq(|items|, k requires 0 <= k < |items| => MergeLine(items[k], newItem))
  }

  /** `addItem`: merge into the line with the same key when `find` locates one, otherwise append. */
  function AddItem(items: seq<CartItem>, newItem: CartItem): seq<CartItem> {
    if Seqs.FirstIndex(items, (it: CartItem) => SameKey(it, newItem)).Some? then MergeAll(items, newItem)
    else items + [newItem]
  }

  /** Adding an existing key: same length, that line's quantity grows by the added quantity, nothing else changes. */
  lemma AddExisting(items: seq<CartItem>, newItem: CartItem, k: nat)
    requires k < |items| && SameKey(items[k], newItem)
    ensures |AddItem(items, newItem)| == |items|
    ensures AddItem(items, newItem)[k] == items[k].(quantity := items[k].quantity + newItem.quantity)
    ensures forall j :: 0 <= j < |items| && !SameKey(items[j], newItem) ==> AddItem(items, newItem)[j] == items[j]
  {
    assert Seqs.FirstIndex(items, (it: CartItem) => SameKey(it, newItem)).Some?;
  }

  /** Adding a new key appends the item at the end. */
  lemma AddNew(items: seq<CartItem>, newItem: CartItem)
    requires forall k :: 0 <= k < |items| ==> !SameKey(items[k], newItem)
    ensures AddItem(items, newItem) == items + [newItem]
    ensures |AddItem(items, newItem)| == |items| + 1
  {
  }

  /** `removeItem`: drop the lines with the key, keep the rest in order. */
  function RemoveItem(items: seq<CartItem>, id: string, size: string, color: string): (r: seq<CartItem>)
    ensures forall k :: 0 <= k < |r| ==> !HasKey(r[k], id, size, color)
  {
    Seqs.Filter(items, (it: CartItem) => !HasKey(it, id, size, color))
  }

  /** Removal keeps every other line, as often as it occurred, and in the original order. */
  lemma RemoveKeepsOthers(items: seq<CartItem>, id: string, size: string, color: string, x: CartItem)
    ensures Seqs.IsSubseq(RemoveItem(items, id, size, color), items)
    ensures !HasKey(x, id, size, color) ==> multiset(RemoveItem(items, id, size, color))[x] == multiset(items)[x]
    ensures HasKey(x, id, size, color) ==> x !in RemoveItem(items, id, size, color)
  {
    var keep := (it: CartItem) => !HasKey(it, id, size, color);
    Seqs.FilterIsSubseq(items, keep);
    Seqs.FilterMultiplicity(items, keep, x);
  }

  /** The `map` of `updateQuantity` for a positive quantity: only the line with the key changes. */
  function SetQuantity(items: seq<CartItem>, id: string, size: string, color: string, quantity: real): (r: seq<CartItem>)
    ensures |r| == |items|
    ensures forall k :: 0 <= k < |items| ==>
              r[k] == if HasKey(items[k], id, size, color) then items[k].(quantity := quantity) else items[k]
  {
    seq(|items|, k requires 0 <= k < |items| =>
      if HasKey(items[k], id, size, color) then items[k].(quantity := quantity) else items[k])
  }

  /** `updateQuantity`: a quantity of 0 or less removes the line. */
  function UpdateQuantity(items: seq<CartItem>, id: string, size: string, color: string, quantity: real): (r: seq<CartItem>)
    ensures quantity <= 0.0 ==> r == RemoveItem(items, id, size, color)
    ensures quantity > 0.0 ==> r == SetQuantity(items, id, size, color, quantity)
  {
    if quantity <= 0.0 then RemoveItem(items, id, size, color) else SetQuantity(items, id, size, color, quantity)
  }

  /** Every operation keeps at most one line per key. */
  lemma OperationsKeepKeysUnique(items: seq<CartItem>, newItem: CartItem, id: string, size: string, color: string, q: real)
    requires UniqueKeys(items)
    ensures UniqueKeys(AddItem(items, newItem))
    ensures UniqueKeys(RemoveItem(items, id, size, color))
    ensures UniqueKeys(UpdateQuantity(items, id, size, color, q))
  {
    Seqs.FilterKeepsPairwise(items, (it: CartItem) => !HasKey(it, id, size, color), (a: CartItem, b: CartItem) => !SameKey(a, b));
    var r := AddItem(items, newItem);
    if Seqs.FirstIndex(items, (it: CartItem) => SameKey(it, newItem)).None? {
      forall i, j | 0 <= i < j < |r| ensures !SameKey(r[i], r[j]) {
        if j == |items| { assert !SameKey(items[i], newItem); }
      }
    }
  }

  // ---------------------------------------------------------------------------
  // getTotal
  // ---------------------------------------------------------------------------

  /** `items.reduce((total, item) => total + item.price * item.quantity, acc)`. */
  function TotalFrom(acc: real, items: seq<CartItem>): real
    decreases |items|
  {
    if items == [] then acc else TotalFrom(acc + items[0].price * items[0].quantity, items[1..])
  }

  /** `getTotal`. */
  function Total(items: seq<CartItem>): real {
    TotalFrom(0.0, items)
  }

  /** The line amounts summed by plain recursion. */
  function LineSum(items: seq<CartItem>): real {
    if items == [] then 0.0 else items[0].price * items[0].quantity + LineSum(items[1..])
  }

  lemma {:induction false} TotalFromIsLineSum(acc: real, items: seq<CartItem>)
    ensures TotalFrom(acc, items) == acc + LineSum(items)
    decreases |items|
  {
    if items != [] {
      TotalFromIsLineSum(acc + items[0].price * items[0].quantity, items[1..]);
    }
  }

  lemma {:induction false} LineSumAppend(a: seq<CartItem>, b: seq<CartItem>)
    ensures LineSum(a + b) == LineSum(a) + LineSum(b)
  {
    if a == [] {
      assert a + b == b;
    } else {
      assert (a + b)[0] == a[0];
      assert (a + b)[1..] == a[1..] + b;
      LineSumAppend(a[1..], b);
    }
  }

  /** An empty cart totals 0, and appending a line adds its amount. */
  lemma TotalAppend(items: seq<CartItem>, item: CartItem)
    ensures Total([]) == 0.0
    ensures Total(items + [item]) == Total(items) + item.price * item.quantity
  {
    TotalFromIsLineSum(0.0, items + [item]);
    TotalFromIsLineSum(0.0, items);
    LineSumAppend(items, [item]);
  }

  /** The amount `addItem` adds to lines with the new item's key: their price times the added quantity. */
  function MergedAmount(items: seq<CartItem>, newItem: CartItem): real {
    if items == [] then 0.0
    else (if SameKey(items[0], newItem) then items[0].price * newItem.quantity else 0.0) + MergedAmount(items[1..], newItem)
  }

  lemma {:induction false} LineSumMerge(items: seq<CartItem>, newItem: CartItem)
    ensures LineSum(MergeAll(items, newItem)) == LineSum(items) + MergedAmount(items, newItem)
  {
    if items != [] {
      assert MergeAll(items, newItem)[1..] == MergeAll(items[1..], newItem);
      LineSumMerge(items[1..], newItem);
      var m := MergeLine(items[0], newItem);
      if SameKey(items[0], newItem) {
        assert m.price * m.quantity == items[0].price * items[0].quantity + items[0].price * newItem.quantity;
      }
    }
  }

  lemma {:induction false} MergedAmountUnique(items: seq<CartItem>, newItem: CartItem, k: nat)
    requires UniqueKeys(items) && k < |items| && SameKey(items[k], newItem)
    ensures MergedAmount(items, newItem) == items[k].price * newItem.quantity
  {
    if k == 0 {
      NoOtherMatch(items[1..], newItem, items[0]);
    } else {
      assert !SameKey(items[0], newItem) by { assert !SameKey(items[0], items[k]); }
      MergedAmountUnique(items[1..], newItem, k - 1);
    }
  }

  lemma {:induction false} NoOtherMatch(items: seq<CartItem>, newItem: CartItem, first: CartItem)
    requires SameKey(first, newItem) && forall j :: 0 <= j < |items| ==> !SameKey(first, items[j])
    ensures MergedAmount(items, newItem) == 0.0
  {
    if items != [] {
      assert !SameKey(items[0], newItem) by { assert !SameKey(first, items[0]); }
      NoOtherMatch(items[1..], newItem, first);
    }
  }

  /**
   * Adding to a cart with unique keys raises the total by the added quantity
   * at the price of the line it lands on: the existing line's price when the
   * key is already present, the new item's own price otherwise.
   */
  lemma AddItemTotal(items: seq<CartItem>, newItem: CartItem)
    requires UniqueKeys(items)
    ensures var f := Seqs.FirstIndex(items, (it: CartItem) => SameKey(it, newItem));
            Total(AddItem(items, newItem))
            == Total(items) + (if f.Some? then items[f.value].price else newItem.price) * newItem.quantity
  {
    var f := Seqs.FirstIndex(items, (it: CartItem) => SameKey(it, newItem));
    if f.Some? {
      TotalFromIsLineSum(0.0, MergeAll(items, newItem));
      TotalFromIsLineSum(0.0, items);
      LineSumMerge(items, newItem);
      MergedAmountUnique(items, newItem, f.value);
    } else {
      TotalAppend(items, newItem);
    }
  }
}
