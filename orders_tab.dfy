/**
 * The admin order list (`components/admin/orders-tab.tsx`): the status
 * filter, the badge colour for a status and the capitalised status label.
 */
module OrdersTab {
  import opened Text
  import Seqs
  import opened OrderContext

  predicate StatusSelected(o: AdminOrder, selectedStatus: string) {
    selectedStatus == "all" || o.status == selectedStatus
  }

  /** `filteredOrders`. */
  function FilteredOrders(orders: seq<AdminOrder>, selectedStatus: string): (r: seq<AdminOrder>)
    ensures forall k :: 0 <= k < |r| ==> StatusSelected(r[k], selectedStatus)
  {
    Seqs.Filter(orders, (o: AdminOrder) => StatusSelected(o, selectedStatus))
  }

  /** "all" keeps every order; any other status keeps exactly the orders with it, in order and as often as before. */
  lemma FilteredOrdersExactly(orders: seq<AdminOrder>, selectedStatus: string, o: AdminOrder)
    ensures selectedStatus == "all" ==> FilteredOrders(orders, selectedStatus) == orders
    ensures Seqs.IsSubseq(FilteredOrders(orders, selectedStatus), orders)
    ensures selectedStatus != "all" ==>
              multiset(FilteredOrders(orders, selectedStatus))[o]
              == if o.status == selectedStatus then multiset(orders)[o] else 0
  {
    var keep := (q: AdminOrder) => StatusSelected(q, selectedStatus);
    if selectedStatus == "all" {
      Seqs.FilterKeepsAll(orders, keep);
    }
    Seqs.FilterIsSubseq(orders, keep);
    Seqs.FilterMultiplicity(orders, keep, o);
  }

  /** The statuses the select offers besides "all". */
  const KnownStatuses: seq<string> := ["pending", "confirmed", "shipped", "delivered", "cancelled"]

  /** `getStatusColor`: any status outside the five known ones falls to grey. */
  function StatusColor(status: string): (r: string)
    ensures r == "bg-gray-500" <==> status !in KnownStatuses
  {
    match status
    case "pending" => "bg-yellow-500"
    case "confirmed" => "bg-blue-500"
    case "shipped" => "bg-purple-500"
    case "delivered" => "bg-green-500"
    case "cancelled" => "bg-red-500"
    case _ => "bg-gray-500"
  }

  /** Distinct known statuses get distinct colours, and no known status shares the fallback. */
  lemma StatusColorInjective(a: string, b: string)
    requires a in KnownStatuses && StatusColor(a) == StatusColor(b)
    ensures a == b
  {
  }

  /** `status.charAt(0).toUpperCase() + status.slice(1)`. */
  function Capitalize(s: string): (r: string)
    ensures |r| == |s|
    ensures s != [] ==> r[0] == UpperChar(s[0]) && r[1..] == s[1..]
  {
    if s == [] then [] else [UpperChar(s[0])] + s[1..]
  }

  /** Capitalising twice is capitalising once. */
  lemma CapitalizeIdempotent(s: string)
    ensures Capitalize(Capitalize(s)) == Capitalize(s)
  {
    if s != [] {
      assert UpperChar(UpperChar(s[0])) == UpperChar(s[0]);
      assert Capitalize(s)[1..] == s[1..];
    }
  }
}
