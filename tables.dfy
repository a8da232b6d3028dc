/**
 * The rows of the storefront's tables, as `lib/database.ts` declares them and
 * as the query functions read and write them. Money and quantities are `real`
 * (JavaScript numbers, without rounding); timestamps are integers.
 */
module Tables {
  import opened Wrappers

  /** A stored flag: a JavaScript boolean, or the 0/1 integer SQLite hands back. */
  datatype Flag = BoolFlag(b: bool) | IntFlag(n: int)

  /** `Boolean(flag)`: JavaScript truthiness of the stored value. */
  function Truthy(f: Flag): bool {
    match f
    case BoolFlag(b) => b
    case IntFlag(n) => n != 0
  }

  datatype PromoRow = PromoRow(
    id: int,
    code: string,
    discount_type: string,
    discount_value: real,
    min_order_amount: real,
    max_uses: Option<int>,
    current_uses: int,
    active: Flag,
    expires_at: Option<int>,
    created_at: int)

  datatype ProductRow = ProductRow(
    id: int,
    name: string,
    description: Option<string>,
    price: real,
    image_url: Option<string>,
    category: string,
    brand: string,
    sizes: string,
    colors: string,
    stock_quantity: real,
    featured: Flag,
    created_at: int,
    updated_at: int)

  datatype OrderRow = OrderRow(
    id: int,
    customer_name: string,
    customer_email: string,
    customer_phone: Option<string>,
    shipping_address: string,
    discount_amount: real,
    total_amount: real,
    promo_code_id: Option<int>,
    status: string,
    created_at: int)

  datatype OrderItemRow = OrderItemRow(
    id: int,
    order_id: int,
    product_id: real,
    quantity: real,
    size: string,
    color: string,
    price: real)

  /** `code TEXT UNIQUE`: no two rows share a code. */
  predicate UniqueCodes(rows: seq<PromoRow>) {
    forall i, j :: 0 <= i < j < |rows| ==> rows[i].code != rows[j].code
  }

  /** `id INTEGER PRIMARY KEY`: no two rows share an id. */
  predicate UniquePromoIds(rows: seq<PromoRow>) {
    forall i, j :: 0 <= i < j < |rows| ==> rows[i].id != rows[j].id
  }

  /** No two product rows share an id. */
  predicate UniqueProductIds(rows: seq<ProductRow>) {
    forall i, j :: 0 <= i < j < |rows| ==> rows[i].id != rows[j].id
  }
}
