/**
 * The admin UI's order list (`components/admin/order-context.tsx`): it starts
 * as the given initial orders and is updated by prepending, merging by id and
 * deleting by id.
 */
module OrderContext {
  import opened Wrappers
  import Seqs

  /**
   * An order as the admin UI holds it. `total_amount` is absent when the
   * backend sent none; its string spelling is not modelled.
   */
  datatype AdminOrder = AdminOrder(
    id: string,
    customer_name: string,
    customer_email: string,
    total_amount: Option<real>,
    status: string,
    created_at: string)

  /** A `Partial<Order>`: each present field overrides the order's. */
  datatype OrderPatch = OrderPatch(
    id: Option<string>,
    customer_name: Option<string>,
    customer_email: Option<string>,
    total_amount: Option<Option<real>>,
    status: Option<string>,
    created_at: Option<string>)

  /** `{ ...o, ...updates }`. */
  function MergeOrder(o: AdminOrder, u: OrderPatch): (r: AdminOrder)
    ensures u.status.Some? ==> r.status == u.status.value
    ensures u.status.None? ==> r.status == o.status
    ensures u == OrderPatch(None, None, None, None, None, None) ==> r == o
  {
    AdminOrder(u.id.GetOr(o.id), u.customer_name.GetOr(o.customer_name), u.customer_email.GetOr(o.customer_email),
               u.total_amount.GetOr(o.total_amount), u.status.GetOr(o.status), u.created_at.GetOr(o.created_at))
  }

  /** `prev.map((o) => (o.id === id ? { ...o, ...updates } : o))`. */
  function UpdateOrderById(orders: seq<AdminOrder>, id: string, u: OrderPatch): (r: seq<AdminOrder>)
    ensures |r| == |orders|
    ensures forall k :: 0 <= k < |orders| && orders[k].id != id ==> r[k] == orders[k]
    ensures forall k :: 0 <= k < |orders| && orders[k].id == id ==> r[k] == MergeOrder(orders[k], u)
  {
    seq(|orders|, k requires 0 <= k < |orders| => if orders[k].id == id then MergeOrder(orders[k], u) else orders[k])
  }

  /** `prev.filter((o) => o.id !== id)`. */
  function DeleteOrderById(orders: seq<AdminOrder>, id: string): (r: seq<AdminOrder>)
    ensures forall k :: 0 <= k < |r| ==> r[k].id != id
  {
    Seqs.Filter(orders, (o: AdminOrder) => o.id != id)
  }

  /** Deleting removes exactly the orders with that id: the rest stay, in order and as often as before. */
  lemma DeleteOrderKeepsOthers(orders: seq<AdminOrder>, id: string, o: AdminOrder)
    ensures Seqs.IsSubseq(DeleteOrderById(orders, id), orders)
    ensures multiset(DeleteOrderById(orders, id))[o] == if o.id == id then 0 else multiset(orders)[o]
    ensures DeleteOrderById(orders, id) == orders <==> forall k :: 0 <= k < |orders| ==> orders[k].id != id
  {
    var keep := (q: AdminOrder) => q.id != id;
    Seqs.FilterIsSubseq(orders, keep);
    Seqs.FilterMultiplicity(orders, keep, o);
    Seqs.FilterShrinksIff(orders, keep);
    if forall k :: 0 <= k < |orders| ==> orders[k].id != id {
      Seqs.FilterKeepsAll(orders, keep);
    }
  }

  /** Adding an order with a new id and then deleting that id gives back the list. */
  lemma {:induction false} AddThenDeleteOrder(orders: seq<AdminOrder>, o: AdminOrder)
    requires forall k :: 0 <= k < |orders| ==> orders[k].id != o.id
    ensures DeleteOrderById([o] + orders, o.id) == orders
  {
    var keep := (q: AdminOrder) => q.id != o.id;
    Seqs.FilterAppend([o], orders, keep);
    Seqs.FilterKeepsAll(orders, keep);
  }

  /** `OrderProvider`'s state. */
  class OrderProvider {
    var orders: seq<AdminOrder>

    /** `useState<Order[]>(initialOrders)`. */
    constructor (initialOrders: seq<AdminOrder>)
      ensures orders == initialOrders
    {
      orders := initialOrders;
    }

    /** No `initialOrders` given: the default `[]`. */
    constructor Empty()
      ensures orders == []
    {
      orders := [];
    }

    /** `setOrders`. */
    method SetOrders(newOrders: seq<AdminOrder>)
      modifies this
      ensures orders == newOrders
    {
      orders := newOrders;
    }

    /** `addOrder`: the new order goes first. */
    method AddOrder(order: AdminOrder)
      modifies this
      ensures orders == [order] + old(orders)
      ensures |orders| == |old(orders)| + 1 && orders[0] == order && orders[1..] == old(orders)
    {
      orders := [order] + orders;
    }

    /** `updateOrder`. */
    method UpdateOrder(id: string, updates: OrderPatch)
      modifies this
      ensures orders == UpdateOrderById(old(orders), id, updates)
    {
      orders := UpdateOrderById(orders, id, updates);
    }

    /** `deleteOrder`. */
    method DeleteOrder(id: string)
      modifies this
      ensures orders == DeleteOrderById(old(orders), id)
    {
      orders := DeleteOrderById(orders, id);
    }
  }
}
