/**
 * The stats row of the admin dashboard (`components/admin/admin-dashboard.tsx`):
 * total revenue and the pending, active-product and active-promo counts.
 */
module AdminDashboard {
  import opened Wrappers
  import Seqs
  import opened OrderContext
  import opened ProductsTab
  import opened PromoCodeContext
  import OrdersTab

  /** The amount an order contributes: a missing `total_amount` counts as 0. */
  function Amount(o: AdminOrder): real {
    o.total_amount.GetOr(0.0)
  }

  /** `orders.reduce((sum, order) => sum + amount(order), acc)`. */
  function RevenueFrom(acc: real, orders: seq<AdminOrder>): real
    decreases |orders|
  {
    if orders == [] then acc else RevenueFrom(acc + Amount(orders[0]), orders[1..])
  }

  /** `totalRevenue`. */
  function TotalRevenue(orders: seq<AdminOrder>): real {
    RevenueFrom(0.0, orders)
  }

  /** The amounts summed by plain recursion. */
  function AmountSum(orders: seq<AdminOrder>): real {
    if orders == [] then 0.0 else Amount(orders[0]) + AmountSum(orders[1..])
  }

  lemma {:induction false} RevenueFromIsSum(acc: real, orders: seq<AdminOrder>)
    ensures RevenueFrom(acc, orders) == acc + AmountSum(orders)
    decreases |orders|
  {
    if orders != [] {
      RevenueFromIsSum(acc + Amount(orders[0]), orders[1..]);
    }
  }

  lemma {:induction false} AmountSumAppend(a: seq<AdminOrder>, b: seq<AdminOrder>)
    ensures AmountSum(a + b) == AmountSum(a) + AmountSum(b)
  {
    if a == [] {
      assert a + b == b;
    } else {
      assert (a + b)[0] == a[0];
      assert (a + b)[1..] == a[1..] + b;
      AmountSumAppend(a[1..], b);
    }
  }

  /** No orders give 0; an order added to the list adds its amount, or nothing when it has none. */
  lemma RevenueOfAddedOrder(orders: seq<AdminOrder>, o: AdminOrder)
    ensures TotalRevenue([]) == 0.0
    ensures TotalRevenue([o] + orders) == Amount(o) + TotalRevenue(orders)
    ensures o.total_amount.None? ==> TotalRevenue([o] + orders) == TotalRevenue(orders)
  {
    RevenueFromIsSum(0.0, [o] + orders);
    RevenueFromIsSum(0.0, orders);
    AmountSumAppend([o], orders);
  }

  /** With no negative amounts the revenue is not negative. */
  lemma {:induction false} RevenueNonNegative(orders: seq<AdminOrder>)
    requires forall k :: 0 <= k < |orders| ==> Amount(orders[k]) >= 0.0
    ensures TotalRevenue(orders) >= 0.0
  {
    RevenueFromIsSum(0.0, orders);
    AmountSumNonNegative(orders);
  }

  lemma {:induction false} AmountSumNonNegative(orders: seq<AdminOrder>)
    requires forall k :: 0 <= k < |orders| ==> Amount(orders[k]) >= 0.0
    ensures AmountSum(orders) >= 0.0
  {
    if orders != [] {
      assert Amount(orders[0]) >= 0.0;
      AmountSumNonNegative(orders[1..]);
    }
  }

  /** `orders.filter((order) => order.status === "pending").length`. */
  function PendingOrders(orders: seq<AdminOrder>): (n: nat)
    ensures n <= |orders|
  {
    |Seqs.Filter(orders, (o: AdminOrder) => o.status == "pending")|
  }

  /** `products.filter((product) => product.is_active).length`. */
  function ActiveProducts(products: seq<AdminProduct>): (n: nat)
    ensures n <= |products|
  {
    |Seqs.Filter(products, (p: AdminProduct) => p.is_active)|
  }

  /** `promoCodes.filter((code) => code.is_active).length`. */
  function ActivePromoCodes(promoCodes: seq<UiPromo>): (n: nat)
    ensures n <= |promoCodes|
  {
    |Seqs.Filter(promoCodes, (p: UiPromo) => p.is_active)|
  }

  /** The pending count is the length of the orders tab's "pending" view, 0 exactly when no order is pending, and all of them exactly when every order is. */
  lemma PendingOrdersCounts(orders: seq<AdminOrder>)
    ensures PendingOrders(orders) == |OrdersTab.FilteredOrders(orders, "pending")|
    ensures PendingOrders(orders) == 0 <==> forall k :: 0 <= k < |orders| ==> orders[k].status != "pending"
    ensures PendingOrders(orders) == |orders| <==> forall k :: 0 <= k < |orders| ==> orders[k].status == "pending"
  {
    var keep := (o: AdminOrder) => o.status == "pending";
    Seqs.FilterCongruent(orders, keep, (o: AdminOrder) => OrdersTab.StatusSelected(o, "pending"));
    Seqs.FilterEmptyIff(orders, keep);
    Seqs.FilterShrinksIff(orders, keep);
  }

  /** The active counts are 0 exactly when nothing is active and full exactly when everything is. */
  lemma ActiveCounts(products: seq<AdminProduct>, promoCodes: seq<UiPromo>)
    ensures ActiveProducts(products) == 0 <==> forall k :: 0 <= k < |products| ==> !products[k].is_active
    ensures ActiveProducts(products) == |products| <==> forall k :: 0 <= k < |products| ==> products[k].is_active
    ensures ActivePromoCodes(promoCodes) == 0 <==> forall k :: 0 <= k < |promoCodes| ==> !promoCodes[k].is_active
    ensures ActivePromoCodes(promoCodes) == |promoCodes| <==> forall k :: 0 <= k < |promoCodes| ==> promoCodes[k].is_active
  {
    Seqs.FilterEmptyIff(products, (p: AdminProduct) => p.is_active);
    Seqs.FilterShrinksIff(products, (p: AdminProduct) => p.is_active);
    Seqs.FilterEmptyIff(promoCodes, (p: UiPromo) => p.is_active);
    Seqs.FilterShrinksIff(promoCodes, (p: UiPromo) => p.is_active);
  }
}
