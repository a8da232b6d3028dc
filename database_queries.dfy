/**
 * The server's query layer (`lib/database-queries.ts`): the exact-match promo
 * lookup and the server-side promo evaluator as pure functions over the
 * promo table, and the statements that change the tables (`createOrder`,
 * `updatePromoCode`, `updateProduct`, `deletePromoCode`) as methods of a
 * `Store` whose fields are the tables.
 */
module DatabaseQueries {
  import opened Wrappers
  import opened Tables
  import opened Promo
  import Seqs

  // ---------------------------------------------------------------------------
  // Lookups
  // ---------------------------------------------------------------------------

  /** `WHERE code = ?` under SQLite's default binary collation: exact equality, no case folding. */
  function CodeIs(code: string): PromoRow -> bool {
    (p: PromoRow) => p.code == code
  }

  /** `getPromoCodeByCode`: the first row, in table order, whose code equals `code` exactly. */
  function GetPromoCodeByCode(rows: seq<PromoRow>, code: string): (r: Option<PromoRow>)
    ensures r.Some? ==> r.value in rows && r.value.code == code
    ensures r.None? <==> forall k :: 0 <= k < |rows| ==> rows[k].code != code
  {
    match Seqs.FirstIndex(rows, CodeIs(code))
    case None => None
    case Some(k) => Some(rows[k])
  }

  /** With codes unique, the lookup returns the one row carrying the code. */
  lemma GetByCodeFindsTheRow(rows: seq<PromoRow>, k: nat)
    requires UniqueCodes(rows) && k < |rows|
    ensures GetPromoCodeByCode(rows, rows[k].code) == Some(rows[k])
  {
    assert Seqs.FirstIndex(rows, CodeIs(rows[k].code)).Some?;
  }

  /** Case matters: a row stored as "SAVE20" is not found by "save20". */
  lemma LookupIsCaseSensitive()
    ensures GetPromoCodeByCode([PromoRow(1, "SAVE20", "fixed", 20.0, 0.0, None, 0, IntFlag(1), None, 0)], "save20") == None
  {
    assert "SAVE20"[0] != "save20"[0];
  }

  /** `SELECT * FROM promo_codes WHERE id = ?`. */
  function PromoById(rows: seq<PromoRow>, id: int): (r: Option<PromoRow>)
    ensures r.Some? ==> r.value in rows && r.value.id == id
    ensures r.None? <==> forall k :: 0 <= k < |rows| ==> rows[k].id != id
  {
    match Seqs.FirstIndex(rows, (p: PromoRow) => p.id == id)
    case None => None
    case Some(k) => Some(rows[k])
  }

  /** `getProductById`. */
  function ProductById(rows: seq<ProductRow>, id: int): (r: Option<ProductRow>)
    ensures r.Some? ==> r.value in rows && r.value.id == id
    ensures r.None? <==> forall k :: 0 <= k < |rows| ==> rows[k].id != id
  {
    match Seqs.FirstIndex(rows, (p: ProductRow) => p.id == id)
    case None => None
    case Some(k) => Some(rows[k])
  }

  // ---------------------------------------------------------------------------
  // validatePromoCode
  // ---------------------------------------------------------------------------

  /** The result of `validatePromoCode`; `discount` and `promoCode` are present only on success. */
  datatype Validation = Validation(valid: bool, message: Message, discount: Option<real>, promoCode: Option<PromoRow>)

  function Fail(m: Message): Validation {
    Validation(false, m, None, None)
  }

  /** The checks after the lookup, in the server's order: inactive, expired, below minimum, usage reached. */
  function CheckRow(p: PromoRow, orderAmount: real, now: int): (v: Validation)
    ensures v.valid <==> Truthy(p.active) && !IsExpired(p.expires_at, now)
                         && orderAmount >= p.min_order_amount && !UsageExhausted(p.max_uses, p.current_uses)
    ensures v.valid ==> v == Validation(true, AppliedServer, Some(Discount(p.discount_type, p.discount_value, orderAmount)), Some(p))
    ensures !v.valid ==> v.discount.None? && v.promoCode.None?
    ensures v.message == Inactive <==> !Truthy(p.active)
    ensures v.message == Expired <==> Truthy(p.active) && IsExpired(p.expires_at, now)
    ensures v.message.MinimumOrder? <==>
              Truthy(p.active) && !IsExpired(p.expires_at, now) && orderAmount < p.min_order_amount
    ensures v.message.MinimumOrder? ==> v.message.amount == p.min_order_amount
    ensures v.message == UsageLimitReached <==>
              Truthy(p.active) && !IsExpired(p.expires_at, now) && orderAmount >= p.min_order_amount
              && UsageExhausted(p.max_uses, p.current_uses)
  {
    if !Truthy(p.active) then Fail(Inactive)
    else if IsExpired(p.expires_at, now) then Fail(Expired)
    else if orderAmount < p.min_order_amount then Fail(MinimumOrder(p.min_order_amount))
    else if UsageExhausted(p.max_uses, p.current_uses) then Fail(UsageLimitReached)
    else Validation(true, AppliedServer, Some(Discount(p.discount_type, p.discount_value, orderAmount)), Some(p))
  }

  /** `validatePromoCode(code, orderAmount)` against the table `rows` at time `now`. */
  function ValidatePromoCode(rows: seq<PromoRow>, code: string, orderAmount: real, now: int): (v: Validation)
    ensures GetPromoCodeByCode(rows, code).None? ==> v == Fail(NotFound)
    ensures GetPromoCodeByCode(rows, code).Some? ==> v == CheckRow(GetPromoCodeByCode(rows, code).value, orderAmount, now)
    ensures v.valid <==> v.message == AppliedServer
    ensures v.valid ==> v.promoCode.Some? && v.promoCode.value in rows && v.promoCode.value.code == code
  {
    match GetPromoCodeByCode(rows, code)
    case None => Fail(NotFound)
    case Some(p) => CheckRow(p, orderAmount, now)
  }

  /** When a code is both below its minimum and used up, the server reports the minimum. */
  lemma MinimumReportedBeforeUsage(p: PromoRow, orderAmount: real, now: int)
    requires Truthy(p.active) && !IsExpired(p.expires_at, now)
    requires orderAmount < p.min_order_amount && UsageExhausted(p.max_uses, p.current_uses)
    ensures CheckRow(p, orderAmount, now) == Fail(MinimumOrder(p.min_order_amount))
  {
  }

  // ---------------------------------------------------------------------------
  // Row-level helpers for the statements
  // ---------------------------------------------------------------------------

  /** One element of `createOrder`'s `items` argument. */
  datatype OrderItemInput = OrderItemInput(product_id: real, quantity: real, size: Option<string>, color: Option<string>, price: real)

  /** `createOrder`'s argument; `subtotal` is declared but the order route never passes it, so it is not modelled. */
  datatype OrderInput = OrderInput(
    customer_name: string,
    customer_email: string,
    customer_phone: Option<string>,
    shipping_address: string,
    discount_amount: Option<real>,
    total_amount: real,
    promo_code: Option<string>,
    items: seq<OrderItemInput>)

  /** `if (orderData.promo_code)`: present and not the empty string. */
  predicate HasPromoCode(code: Option<string>) {
    code.Some? && code.value != ""
  }

  /** `promoCode?.id || null`: the id of the row with exactly that code, if there is one and its id is not 0. */
  function PromoCodeId(rows: seq<PromoRow>, code: Option<string>): (r: Option<int>)
    ensures r.Some? ==> HasPromoCode(code) && exists k :: 0 <= k < |rows| && rows[k].code == code.value && rows[k].id == r.value
    ensures HasPromoCode(code) && GetPromoCodeByCode(rows, code.value).None? ==> r.None?
  {
    if HasPromoCode(code) then
      match GetPromoCodeByCode(rows, code.value)
      case None => None
      case Some(p) => if p.id != 0 then Some(p.id) else None
    else None
  }

  /** The `order_items` row `createOrder` inserts for `item`: size and color default to "" (`item.size || ""`). */
  function ItemRow(orderId: int, id: int, item: OrderItemInput): (r: OrderItemRow)
    ensures r.id == id && r.order_id == orderId
    ensures r.product_id == item.product_id && r.quantity == item.quantity && r.price == item.price
    ensures item.size.Some? ==> r.size == item.size.value
    ensures item.size.None? ==> r.size == ""
    ensures item.color.Some? ==> r.color == item.color.value
    ensures item.color.None? ==> r.color == ""
  {
    OrderItemRow(id, orderId, item.product_id, item.quantity, item.size.GetOr(""), item.color.GetOr(""), item.price)
  }

  /** The `orders` row `createOrder` inserts: phone `|| null`, discount `|| 0`, status defaults to "pending". */
  function OrderRowFor(id: int, data: OrderInput, promoCodeId: Option<int>, now: int): (r: OrderRow)
    ensures r.id == id && r.status == "pending" && r.promo_code_id == promoCodeId
    ensures r.customer_phone.Some? <==> data.customer_phone.Some? && data.customer_phone.value != ""
    ensures r.discount_amount == data.discount_amount.GetOr(0.0) && r.total_amount == data.total_amount
  {
    OrderRow(id, data.customer_name, data.customer_email,
             if data.customer_phone.Some? && data.customer_phone.value != "" then data.customer_phone else None,
             data.shipping_address, data.discount_amount.GetOr(0.0), data.total_amount,
             promoCodeId, "pending", now)
  }

  function Bump(p: PromoRow, code: string): PromoRow {
    if p.code == code then p.(current_uses := p.current_uses + 1) else p
  }

  /** `UPDATE promo_codes SET current_uses = current_uses + 1 WHERE code = ?`. */
  function IncrementUses(rows: seq<PromoRow>, code: string): (r: seq<PromoRow>)
    ensures |r| == |rows|
    ensures forall k :: 0 <= k < |rows| ==> r[k] == Bump(rows[k], code)
  {
    if rows == [] then [] else [Bump(rows[0], code)] + IncrementUses(rows[1..], code)
  }

  /** The sum of `current_uses` over the table. */
  function TotalUses(rows: seq<PromoRow>): int {
    if rows == [] then 0 else rows[0].current_uses + TotalUses(rows[1..])
  }

  /** How many rows carry exactly this code. */
  function CountCode(rows: seq<PromoRow>, code: string): (n: nat)
    ensures n <= |rows|
    ensures n == 0 <==> forall k :: 0 <= k < |rows| ==> rows[k].code != code
  {
    if rows == [] then 0 else (if rows[0].code == code then 1 else 0) + CountCode(rows[1..], code)
  }

  /** The increment adds one use per row carrying the code, and touches nothing else. */
  lemma {:induction false} IncrementUsesTotal(rows: seq<PromoRow>, code: string)
    ensures TotalUses(IncrementUses(rows, code)) == TotalUses(rows) + CountCode(rows, code)
  {
    if rows != [] {
      IncrementUsesTotal(rows[1..], code);
      assert IncrementUses(rows, code)[1..] == IncrementUses(rows[1..], code);
    }
  }

  /** Under `UNIQUE(code)` a code names at most one row. */
  lemma {:induction false} UniqueCodeCountsOnce(rows: seq<PromoRow>, code: string)
    requires UniqueCodes(rows)
    ensures CountCode(rows, code) <= 1
  {
    if rows != [] {
      UniqueCodeCountsOnce(rows[1..], code);
      if rows[0].code == code {
        forall k | 0 <= k < |rows| - 1 ensures rows[1..][k].code != code {
          assert rows[k + 1].code != rows[0].code;
        }
      }
    }
  }

  /** The increment keeps every row's code and id, so the constraints still hold afterwards. */
  lemma IncrementUsesKeepsKeys(rows: seq<PromoRow>, code: string)
    requires UniqueCodes(rows) && UniquePromoIds(rows)
    ensures UniqueCodes(IncrementUses(rows, code)) && UniquePromoIds(IncrementUses(rows, code))
  {
  }

  /**
   * An update of `updatePromoCode`: `Some` for each column key present in the
   * request body, and `other` for the keys that name no column (the admin
   * toggle sends `is_active`).
   */
  datatype PromoPatch = PromoPatch(
    id: Option<int>,
    code: Option<string>,
    discount_type: Option<string>,
    discount_value: Option<real>,
    min_order_amount: Option<real>,
    max_uses: Option<Option<int>>,
    current_uses: Option<int>,
    active: Option<Flag>,
    expires_at: Option<Option<int>>,
    created_at: Option<int>,
    other: set<string>)

  /** Keys left after dropping `id`, `created_at` and `current_uses`. */
  predicate PromoPatchHasFields(u: PromoPatch) {
    u.code.Some? || u.discount_type.Some? || u.discount_value.Some? || u.min_order_amount.Some?
    || u.max_uses.Some? || u.active.Some? || u.expires_at.Some? || u.other != {}
  }

  /**
   * The statement can run: every key names a column (`SET is_active = ?`
   * fails to prepare), and no value is a JavaScript boolean, which
   * better-sqlite3 refuses to bind.
   */
  predicate PromoPatchRuns(u: PromoPatch) {
    u.other == {} && (u.active.Some? ==> u.active.value.IntFlag?)
  }

  /** Whether `updatePromoCode` throws: it has something to set, and the statement cannot run or breaks `UNIQUE(code)`. */
  predicate PromoUpdateThrows(rows: seq<PromoRow>, id: int, u: PromoPatch) {
    PromoPatchHasFields(u) && (!PromoPatchRuns(u) || !UniqueCodes(UpdatePromoRows(rows, id, u)))
  }

  /**
   * The admin toggle's body `{ is_active: b }` names no column, so the update
   * throws whatever the table holds; so does `{ active: b }` with a boolean.
   */
  lemma PromoToggleThrows(rows: seq<PromoRow>, id: int, b: bool)
    ensures PromoUpdateThrows(rows, id, PromoPatch(None, None, None, None, None, None, None, None, None, None, {"is_active"}))
    ensures PromoUpdateThrows(rows, id, PromoPatch(None, None, None, None, None, None, None, Some(BoolFlag(b)), None, None, {}))
  {
  }

  /** The `SET` clause applied to one row: only the remaining keys are written. */
  function ApplyPromoPatch(p: PromoRow, u: PromoPatch): (r: PromoRow)
    ensures r.id == p.id && r.created_at == p.created_at && r.current_uses == p.current_uses
    ensures u.code.None? ==> r.code == p.code
    ensures !PromoPatchHasFields(u) ==> r == p
  {
    p.(code := u.code.GetOr(p.code),
       discount_type := u.discount_type.GetOr(p.discount_type),
       discount_value := u.discount_value.GetOr(p.discount_value),
       min_order_amount := u.min_order_amount.GetOr(p.min_order_amount),
       max_uses := u.max_uses.GetOr(p.max_uses),
       active := u.active.GetOr(p.active),
       expires_at := u.expires_at.GetOr(p.expires_at))
  }

  /** `UPDATE promo_codes SET ... WHERE id = ?` over the whole table. */
  function UpdatePromoRows(rows: seq<PromoRow>, id: int, u: PromoPatch): (r: seq<PromoRow>)
    ensures |r| == |rows|
    ensures forall k :: 0 <= k < |rows| ==>
              (r[k].id == rows[k].id && r[k].created_at == rows[k].created_at && r[k].current_uses == rows[k].current_uses)
    ensures forall k :: 0 <= k < |rows| && rows[k].id != id ==> r[k] == rows[k]
    ensures forall k :: 0 <= k < |rows| && rows[k].id == id ==> r[k] == ApplyPromoPatch(rows[k], u)
  {
    seq(|rows|, k requires 0 <= k < |rows| => if rows[k].id == id then ApplyPromoPatch(rows[k], u) else rows[k])
  }

  /** An update of `updateProduct`: `Some` for each column key present in the request body, `other` for the rest. */
  datatype ProductPatch = ProductPatch(
    id: Option<int>,
    name: Option<string>,
    description: Option<Option<string>>,
    price: Option<real>,
    image_url: Option<Option<string>>,
    category: Option<string>,
    brand: Option<string>,
    sizes: Option<string>,
    colors: Option<string>,
    stock_quantity: Option<real>,
    featured: Option<Flag>,
    created_at: Option<int>,
    updated_at: Option<int>,
    other: set<string>)

  /** Keys left after dropping `id` and `created_at`. */
  predicate ProductPatchHasFields(u: ProductPatch) {
    u.name.Some? || u.description.Some? || u.price.Some? || u.image_url.Some? || u.category.Some?
    || u.brand.Some? || u.sizes.Some? || u.colors.Some? || u.stock_quantity.Some? || u.featured.Some?
    || u.updated_at.Some? || u.other != {}
  }

  /** As for promo codes: every key names a column and no value is a JavaScript boolean. */
  predicate ProductPatchRuns(u: ProductPatch) {
    u.other == {} && (u.featured.Some? ==> u.featured.value.IntFlag?)
  }

  /** The products tab's toggle body `{ is_active: b }`: `products` has no such column. */
  lemma ProductToggleFails(b: bool)
    ensures var u := ProductPatch(None, None, None, None, None, None, None, None, None, None, None, None, None, {"is_active"});
            ProductPatchHasFields(u) && !ProductPatchRuns(u)
  {
  }

  /**
   * The `SET` clause on one product row. `updated_at` is always set to the
   * current time: SQLite keeps only the rightmost assignment to a column, and
   * `updated_at = CURRENT_TIMESTAMP` comes last.
   */
  function ApplyProductPatch(p: ProductRow, u: ProductPatch, now: int): (r: ProductRow)
    ensures r.id == p.id && r.created_at == p.created_at && r.updated_at == now
    ensures u.name.None? ==> r.name == p.name
    ensures u.price.None? ==> r.price == p.price
  {
    p.(name := u.name.GetOr(p.name),
       description := u.description.GetOr(p.description),
       price := u.price.GetOr(p.price),
       image_url := u.image_url.GetOr(p.image_url),
       category := u.category.GetOr(p.category),
       brand := u.brand.GetOr(p.brand),
       sizes := u.sizes.GetOr(p.sizes),
       colors := u.colors.GetOr(p.colors),
       stock_quantity := u.stock_quantity.GetOr(p.stock_quantity),
       featured := u.featured.GetOr(p.featured),
       updated_at := now)
  }

  /** `UPDATE products SET ... WHERE id = ?` over the whole table. */
  function UpdateProductRows(rows: seq<ProductRow>, id: int, u: ProductPatch, now: int): (r: seq<ProductRow>)
    ensures |r| == |rows|
    ensures forall k :: 0 <= k < |rows| ==> r[k].id == rows[k].id && r[k].created_at == rows[k].created_at
    ensures forall k :: 0 <= k < |rows| && rows[k].id != id ==> r[k] == rows[k]
    ensures forall k :: 0 <= k < |rows| && rows[k].id == id ==> r[k] == ApplyProductPatch(rows[k], u, now)
  {
    seq(|rows|, k requires 0 <= k < |rows| => if rows[k].id == id then ApplyProductPatch(rows[k], u, now) else rows[k])
  }

  /** The outcome of a statement that may violate a constraint: the re-selected row, or the thrown error. */
  datatype Outcome<T> = Selected(row: Option<T>) | StatementError

  // ---------------------------------------------------------------------------
  // The tables
  // ---------------------------------------------------------------------------

  /** The database: one sequence of rows per table, plus the next AUTOINCREMENT ids. */
  class Store {
    var promoCodes: seq<PromoRow>
    var products: seq<ProductRow>
    var orders: seq<OrderRow>
    var orderItems: seq<OrderItemRow>
    var nextOrderId: int
    var nextItemId: int

    /** The table constraints, and every stored id below the next one to be handed out. */
    ghost predicate Valid()
      reads this
    {
      UniqueCodes(promoCodes) && UniquePromoIds(promoCodes) && UniqueProductIds(products)
      && (forall k :: 0 <= k < |orders| ==> orders[k].id < nextOrderId)
      && (forall k :: 0 <= k < |orderItems| ==> orderItems[k].id < nextItemId)
    }

    /** A database holding the given promo codes and products and no orders yet. */
    constructor (promoRows: seq<PromoRow>, productRows: seq<ProductRow>)
      requires UniqueCodes(promoRows) && UniquePromoIds(promoRows) && UniqueProductIds(productRows)
      ensures Valid()
      ensures promoCodes == promoRows && products == productRows && orders == [] && orderItems == []
    {
      promoCodes := promoRows;
      products := productRows;
      orders := [];
      orderItems := [];
      nextOrderId := 1;
      nextItemId := 1;
    }

    /**
     * `createOrder`: insert the order row, one item row per input item in
     * order, and, when a promo code is given, count one more use on the rows
     * carrying exactly that code. The whole call is one transaction.
     */
    method CreateOrder(data: OrderInput, now: int) returns (order: OrderRow)
      requires Valid()
      modifies this
      ensures Valid()
      ensures order == OrderRowFor(old(nextOrderId), data, PromoCodeId(old(promoCodes), data.promo_code), now)
      ensures forall k :: 0 <= k < |old(orders)| ==> old(orders)[k].id < order.id
      ensures orders == old(orders) + [order]
      ensures |orderItems| == |old(orderItems)| + |data.items|
      ensures orderItems[..|old(orderItems)|] == old(orderItems)
      ensures forall k :: 0 <= k < |data.items| ==>
                orderItems[|old(orderItems)| + k] == ItemRow(order.id, old(nextItemId) + k, data.items[k])
      ensures HasPromoCode(data.promo_code) ==> promoCodes == IncrementUses(old(promoCodes), data.promo_code.value)
      ensures !HasPromoCode(data.promo_code) ==> promoCodes == old(promoCodes)
      ensures products == old(products)
    {
      var promoCodeId := PromoCodeId(promoCodes, data.promo_code);
      order := OrderRowFor(nextOrderId, data, promoCodeId, now);
      InsertOrder(order);
      InsertOrderItems(order.id, data.items);

      if HasPromoCode(data.promo_code) {
        CountPromoUse(data.promo_code.value);
      }
    }

    /** The `UPDATE promo_codes SET current_uses = current_uses + 1 WHERE code = ?` of `createOrder`. */
    method CountPromoUse(code: string)
      requires UniqueCodes(promoCodes) && UniquePromoIds(promoCodes)
      modifies this
      ensures promoCodes == IncrementUses(old(promoCodes), code)
      ensures UniqueCodes(promoCodes) && UniquePromoIds(promoCodes)
      ensures products == old(products) && orders == old(orders) && orderItems == old(orderItems)
      ensures nextOrderId == old(nextOrderId) && nextItemId == old(nextItemId)
    {
      IncrementUsesKeepsKeys(promoCodes, code);
      promoCodes := IncrementUses(promoCodes, code);
    }

    /** The `INSERT INTO orders` of `createOrder`, under the next free id. */
    method InsertOrder(order: OrderRow)
      requires order.id == nextOrderId
      requires forall k :: 0 <= k < |orders| ==> orders[k].id < nextOrderId
      modifies this
      ensures orders == old(orders) + [order] && nextOrderId == old(nextOrderId) + 1
      ensures forall k :: 0 <= k < |old(orders)| ==> old(orders)[k].id < order.id
      ensures forall k :: 0 <= k < |orders| ==> orders[k].id < nextOrderId
      ensures promoCodes == old(promoCodes) && products == old(products) && orderItems == old(orderItems)
      ensures nextItemId == old(nextItemId)
    {
      orders := orders + [order];
      nextOrderId := nextOrderId + 1;
      assert forall k :: 0 <= k < |orders| ==> orders[k].id < nextOrderId by {
        forall k | 0 <= k < |orders| ensures orders[k].id < nextOrderId {
          if k < |old(orders)| { assert orders[k] == old(orders)[k]; }
        }
      }
    }

    /** The item loop of `createOrder`: one row per input item, in order, each with a fresh id. */
    method InsertOrderItems(orderId: int, items: seq<OrderItemInput>)
      modifies this
      requires forall k :: 0 <= k < |orderItems| ==> orderItems[k].id < nextItemId
      ensures |orderItems| == |old(orderItems)| + |items|
      ensures orderItems[..|old(orderItems)|] == old(orderItems)
      ensures forall k :: 0 <= k < |items| ==>
                orderItems[|old(orderItems)| + k] == ItemRow(orderId, old(nextItemId) + k, items[k])
      ensures nextItemId == old(nextItemId) + |items|
      ensures forall k :: 0 <= k < |orderItems| ==> orderItems[k].id < nextItemId
      ensures promoCodes == old(promoCodes) && products == old(products) && orders == old(orders)
      ensures nextOrderId == old(nextOrderId)
    {
      var i := 0;
      while i < |items|
        invariant 0 <= i <= |items|
        invariant |orderItems| == |old(orderItems)| + i && orderItems[..|old(orderItems)|] == old(orderItems)
        invariant nextItemId == old(nextItemId) + i
        invariant forall k :: 0 <= k < i ==> orderItems[|old(orderItems)| + k] == ItemRow(orderId, old(nextItemId) + k, items[k])
        invariant forall k :: 0 <= k < |orderItems| ==> orderItems[k].id < nextItemId
        invariant promoCodes == old(promoCodes) && products == old(products) && orders == old(orders)
        invariant nextOrderId == old(nextOrderId)
      {
        orderItems := orderItems + [ItemRow(orderId, nextItemId, items[i])];
        nextItemId := nextItemId + 1;
        i := i + 1;
      }
    }

    /**
     * `updatePromoCode`: with nothing left to set, the row is re-selected
     * untouched; otherwise the row with that id is updated, unless the
     * statement cannot run (a key that names no column, a boolean value) or
     * the new code collides with another row's, in which case it throws and
     * the table keeps its old contents.
     */
    method UpdatePromoCode(id: int, updates: PromoPatch) returns (r: Outcome<PromoRow>)
      requires Valid()
      modifies this
      ensures Valid()
      ensures !PromoPatchHasFields(updates) ==> promoCodes == old(promoCodes) && r == Selected(PromoById(promoCodes, id))
      ensures PromoPatchHasFields(updates) && !PromoUpdateThrows(old(promoCodes), id, updates) ==>
                promoCodes == UpdatePromoRows(old(promoCodes), id, updates) && r == Selected(PromoById(promoCodes, id))
      ensures PromoUpdateThrows(old(promoCodes), id, updates) ==> promoCodes == old(promoCodes) && r == StatementError
      ensures products == old(products) && orders == old(orders) && orderItems == old(orderItems)
      ensures nextOrderId == old(nextOrderId) && nextItemId == old(nextItemId)
    {
      if !PromoPatchHasFields(updates) {
        r := Selected(PromoById(promoCodes, id));
      } else {
        var updated := UpdatePromoRows(promoCodes, id, updates);
        if PromoPatchRuns(updates) && UniqueCodes(updated) {
          promoCodes := updated;
          r := Selected(PromoById(promoCodes, id));
        } else {
          r := StatementError;
        }
      }
    }

    /**
     * `updateProduct`: like `UpdatePromoCode` (products have no unique column
     * besides the id, which is never set), and any real update also stamps
     * `updated_at`.
     */
    method UpdateProduct(id: int, updates: ProductPatch, now: int) returns (r: Outcome<ProductRow>)
      requires Valid()
      modifies this
      ensures Valid()
      ensures !ProductPatchHasFields(updates) ==> products == old(products) && r == Selected(ProductById(products, id))
      ensures ProductPatchHasFields(updates) && ProductPatchRuns(updates) ==>
                products == UpdateProductRows(old(products), id, updates, now) && r == Selected(ProductById(products, id))
      ensures ProductPatchHasFields(updates) && !ProductPatchRuns(updates) ==> products == old(products) && r == StatementError
      ensures promoCodes == old(promoCodes) && orders == old(orders) && orderItems == old(orderItems)
      ensures nextOrderId == old(nextOrderId) && nextItemId == old(nextItemId)
    {
      if !ProductPatchHasFields(updates) {
        r := Selected(ProductById(products, id));
      } else if ProductPatchRuns(updates) {
        products := UpdateProductRows(products, id, updates, now);
        r := Selected(ProductById(products, id));
      } else {
        r := StatementError;
      }
    }

    /** `deletePromoCode`: remove the rows with that id; report whether anything was removed. */
    method DeletePromoCode(id: int) returns (deleted: bool)
      requires Valid()
      modifies this
      ensures Valid()
      ensures promoCodes == Seqs.Filter(old(promoCodes), (p: PromoRow) => p.id != id)
      ensures deleted <==> exists k :: 0 <= k < |old(promoCodes)| && old(promoCodes)[k].id == id
      ensures products == old(products) && orders == old(orders) && orderItems == old(orderItems)
      ensures nextOrderId == old(nextOrderId) && nextItemId == old(nextItemId)
    {
      var keep := (p: PromoRow) => p.id != id;
      var remaining := Seqs.Filter(promoCodes, keep);
      Seqs.FilterShrinksIff(promoCodes, keep);
      Seqs.FilterKeepsPairwise(promoCodes, keep, (a: PromoRow, b: PromoRow) => a.code != b.code);
      Seqs.FilterKeepsPairwise(promoCodes, keep, (a: PromoRow, b: PromoRow) => a.id != b.id);
      deleted := |remaining| < |promoCodes|;
      promoCodes := remaining;
    }
  }
}
