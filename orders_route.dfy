/**
 * `POST /api/orders` (`app/api/orders/route.ts`): the body is checked against
 * `orderSchema`, the subtotal is summed from the line items, an entered promo
 * code is validated on the server and turned into a discount, and the order
 * is written through `createOrder`.
 */
module OrdersRoute {
  import opened Wrappers
  import opened Json
  import Text
  import opened Tables
  import opened Promo
  import opened Schema
  import opened PromoCodeContext
  import opened PromoDiscount
  import opened PromoAgreement
  import opened DatabaseQueries

  // ---------------------------------------------------------------------------
  // orderSchema
  // ---------------------------------------------------------------------------

  /** The output of `orderSchema`. */
  datatype OrderRequest = OrderRequest(
    customer_name: string,
    customer_email: string,
    customer_phone: Option<string>,
    shipping_address: string,
    promo_code: Option<string>,
    items: seq<OrderItemInput>)

  /** What the item schema demands: `quantity` at least 1, `price` at least 0. */
  predicate ValidItem(i: OrderItemInput) {
    i.quantity >= 1.0 && i.price >= 0.0
  }

  /**
   * What `orderSchema` demands: a name and an address, an email the email
   * check accepts (`isEmail` stands for zod's email pattern), and at least
   * one valid item.
   */
  predicate ValidRequest(d: OrderRequest, isEmail: string -> bool) {
    d.customer_name != [] && isEmail(d.customer_email) && d.shipping_address != []
    && |d.items| >= 1 && forall k :: 0 <= k < |d.items| ==> ValidItem(d.items[k])
  }

  /** The item schema. */
  function ParseItem(j: Json): (r: Option<OrderItemInput>)
    ensures r.Some? ==> ValidItem(r.value)
  {
    if !j.JObj? then None
    else
      var f := j.fields;
      var productId := Num(Get(f, "product_id"), None);
      var quantity := Num(Get(f, "quantity"), Some(1.0));
      var size := OptStr(Get(f, "size"));
      var color := OptStr(Get(f, "color"));
      var price := Num(Get(f, "price"), Some(0.0));
      if productId.None? || quantity.None? || size.None? || color.None? || price.None? then None
      else Some(OrderItemInput(productId.value, quantity.value, size.value, color.value, price.value))
  }

  /** A `null` product id fails `z.number()`, whatever the other fields hold. */
  lemma NullProductIdRefused(f: map<string, Json>)
    requires "product_id" in f && f["product_id"] == JNull
    ensures ParseItem(JObj(f)) == None
  {
  }

  /** `z.array(itemSchema)`: every element must parse. */
  function ParseItems(js: seq<Json>): (r: Option<seq<OrderItemInput>>)
    ensures r.Some? ==> |r.value| == |js| && forall k :: 0 <= k < |js| ==> ParseItem(js[k]) == Some(r.value[k])
    ensures r.None? ==> exists k :: 0 <= k < |js| && ParseItem(js[k]).None?
  {
    if js == [] then Some([])
    else match (ParseItem(js[0]), ParseItems(js[1..]))
      case (Some(i), Some(rest)) => Some([i] + rest)
      case (None, _) => None
      case (Some(_), None) =>
        var k :| 0 <= k < |js| - 1 && ParseItem(js[1..][k]).None?;
        assert ParseItem(js[k + 1]).None?;
        None
  }

  /** `orderSchema.parse(body)`, `None` when zod throws. */
  function ParseOrder(body: Json, isEmail: string -> bool): (r: Option<OrderRequest>)
    ensures r.Some? ==> ValidRequest(r.value, isEmail)
  {
    if !body.JObj? then None
    else
      var f := body.fields;
      var name := Str(Get(f, "customer_name"), 1);
      var email := Str(Get(f, "customer_email"), 0);
      var phone := OptStr(Get(f, "customer_phone"));
      var address := Str(Get(f, "shipping_address"), 1);
      var promo := OptStr(Get(f, "promo_code"));
      var items := if "items" in f && f["items"].JArr? then ParseItems(f["items"].elems) else None;
      if name.None? || email.None? || !isEmail(email.value) || phone.None? || address.None? || promo.None?
         || items.None? || |items.value| < 1 then None
      else Some(OrderRequest(name.value, email.value, phone.value, address.value, promo.value, items.value))
  }

  /** An `items` array with an element that fails its schema fails the whole body. */
  lemma BadItemsRefused(f: map<string, Json>, isEmail: string -> bool)
    requires "items" in f && f["items"].JArr? && ParseItems(f["items"].elems).None?
    ensures ParseOrder(JObj(f), isEmail) == None
  {
  }

  function EncodeItem(i: OrderItemInput): Json {
    JObj((if i.size.Some? then map["size" := JStr(i.size.value)] else map[])
         + (if i.color.Some? then map["color" := JStr(i.color.value)] else map[])
         + map["product_id" := JNum(i.product_id), "quantity" := JNum(i.quantity), "price" := JNum(i.price)])
  }

  function EncodeItems(items: seq<OrderItemInput>): (js: seq<Json>)
    ensures |js| == |items| && forall k :: 0 <= k < |items| ==> js[k] == EncodeItem(items[k])
  {
    seq(|items|, k requires 0 <= k < |items| => EncodeItem(items[k]))
  }

  /** The request body that submits `d` with every field written out. */
  function EncodeOrder(d: OrderRequest): Json {
    JObj((if d.customer_phone.Some? then map["customer_phone" := JStr(d.customer_phone.value)] else map[])
         + (if d.promo_code.Some? then map["promo_code" := JStr(d.promo_code.value)] else map[])
         + map["customer_name" := JStr(d.customer_name), "customer_email" := JStr(d.customer_email),
               "shipping_address" := JStr(d.shipping_address),
               "items" := JArr(EncodeItems(d.items))])
  }

  lemma ParseEncodeItem(i: OrderItemInput)
    requires ValidItem(i)
    ensures ParseItem(EncodeItem(i)) == Some(i)
  {
    var f := EncodeItem(i).fields;
    assert Get(f, "product_id") == Some(JNum(i.product_id)) && Get(f, "quantity") == Some(JNum(i.quantity));
    assert Get(f, "price") == Some(JNum(i.price));
    assert i.size.Some? ==> Get(f, "size") == Some(JStr(i.size.value));
    assert i.size.None? ==> Get(f, "size") == None;
    assert i.color.Some? ==> Get(f, "color") == Some(JStr(i.color.value));
    assert i.color.None? ==> Get(f, "color") == None;
  }

  lemma {:induction false} ParseEncodeItems(items: seq<OrderItemInput>)
    requires forall k :: 0 <= k < |items| ==> ValidItem(items[k])
    ensures ParseItems(EncodeItems(items)) == Some(items)
  {
    var js := EncodeItems(items);
    if items != [] {
      ParseEncodeItem(items[0]);
      assert js[1..] == EncodeItems(items[1..]);
      ParseEncodeItems(items[1..]);
      assert [items[0]] + items[1..] == items;
    }
  }

  /** The fields `EncodeOrder` writes unconditionally. */
  lemma EncodeOrderRequired(d: OrderRequest)
    ensures Get(EncodeOrder(d).fields, "customer_name") == Some(JStr(d.customer_name))
    ensures Get(EncodeOrder(d).fields, "customer_email") == Some(JStr(d.customer_email))
    ensures Get(EncodeOrder(d).fields, "shipping_address") == Some(JStr(d.shipping_address))
    ensures "items" in EncodeOrder(d).fields
            && EncodeOrder(d).fields["items"] == JArr(EncodeItems(d.items))
  {
  }

  /** The optional fields come back as written. */
  lemma EncodeOrderOptional(d: OrderRequest)
    ensures OptStr(Get(EncodeOrder(d).fields, "customer_phone")) == Some(d.customer_phone)
    ensures OptStr(Get(EncodeOrder(d).fields, "promo_code")) == Some(d.promo_code)
  {
    var f := EncodeOrder(d).fields;
    if d.customer_phone.Some? {
      assert Get(f, "customer_phone") == Some(JStr(d.customer_phone.value));
    } else {
      assert "customer_phone" !in f;
    }
    if d.promo_code.Some? {
      assert Get(f, "promo_code") == Some(JStr(d.promo_code.value));
    } else {
      assert "promo_code" !in f;
    }
  }

  /** Every request the schema admits is accepted exactly as submitted. */
  lemma ParseEncodeOrder(d: OrderRequest, isEmail: string -> bool)
    requires ValidRequest(d, isEmail)
    ensures ParseOrder(EncodeOrder(d), isEmail) == Some(d)
  {
    EncodeOrderRequired(d);
    EncodeOrderOptional(d);
    ParseEncodeItems(d.items);
  }

  /** An order with no items is refused, however well-formed the rest. */
  lemma EmptyOrderRefused(d: OrderRequest, isEmail: string -> bool)
    ensures ParseOrder(EncodeOrder(d.(items := [])), isEmail) == None
  {
    var f := EncodeOrder(d.(items := [])).fields;
    assert "items" in f && f["items"] == JArr([]);
  }

  // ---------------------------------------------------------------------------
  // Subtotal
  // ---------------------------------------------------------------------------

  /** `items.reduce((sum, item) => sum + item.price * item.quantity, acc)`. */
  function SubtotalFrom(acc: real, items: seq<OrderItemInput>): real
    decreases |items|
  {
    if items == [] then acc else SubtotalFrom(acc + items[0].price * items[0].quantity, items[1..])
  }

  /** The route's subtotal. */
  function Subtotal(items: seq<OrderItemInput>): real {
    SubtotalFrom(0.0, items)
  }

  /** The sum of the line amounts, written as a plain recursion. */
  function LineSum(items: seq<OrderItemInput>): real {
    if items == [] then 0.0 else items[0].price * items[0].quantity + LineSum(items[1..])
  }

  lemma {:induction false} SubtotalFromIsLineSum(acc: real, items: seq<OrderItemInput>)
    ensures SubtotalFrom(acc, items) == acc + LineSum(items)
    decreases |items|
  {
    if items != [] {
      SubtotalFromIsLineSum(acc + items[0].price * items[0].quantity, items[1..]);
    }
  }

  /** The fold adds up the line amounts; an order of valid items has a non-negative subtotal. */
  lemma {:induction false} SubtotalNonNegative(items: seq<OrderItemInput>)
    requires forall k :: 0 <= k < |items| ==> ValidItem(items[k])
    ensures Subtotal(items) == LineSum(items) && Subtotal(items) >= 0.0
  {
    SubtotalFromIsLineSum(0.0, items);
    LineSumNonNegative(items);
  }

  lemma {:induction false} LineSumNonNegative(items: seq<OrderItemInput>)
    requires forall k :: 0 <= k < |items| ==> ValidItem(items[k])
    ensures LineSum(items) >= 0.0
  {
    if items != [] {
      LineSumNonNegative(items[1..]);
      assert items[0].price * items[0].quantity >= 0.0;
    }
  }

  // ---------------------------------------------------------------------------
  // Discount and total
  // ---------------------------------------------------------------------------

  /** The route's discount and total, or the promo failure that sends back 400. */
  datatype Pricing = Priced(discount_amount: real, total_amount: real) | PromoRejected(message: Message)

  /** Lines 33-46 with `promo` as the code handed to `validatePromoCode`. */
  function PriceWith(rows: seq<PromoRow>, promo: Option<string>, subtotal: real, now: int): (p: Pricing)
    ensures !HasPromoCode(promo) ==> p == Priced(0.0, subtotal)
    ensures HasPromoCode(promo) ==>
              (p.PromoRejected? <==> !ValidatePromoCode(rows, promo.value, subtotal, now).valid)
              && (p.PromoRejected? ==> p.message == ValidatePromoCode(rows, promo.value, subtotal, now).message)
              && (p.Priced? ==> p.discount_amount == ValidatePromoCode(rows, promo.value, subtotal, now).discount.value)
    ensures p.Priced? ==> p.total_amount + p.discount_amount == subtotal
  {
    if HasPromoCode(promo) then
      var v := ValidatePromoCode(rows, promo.value, subtotal, now);
      if !v.valid then PromoRejected(v.message)
      else
        var discount := v.discount.GetOr(0.0);
        Priced(discount, subtotal - discount)
    else Priced(0.0, subtotal)
  }

  /** The total is not floored: a flat 20 off an order of 15 is charged -5. */
  lemma TotalCanGoNegative(now: int)
    ensures PriceWith([PromoRow(2, "SAVE20", "fixed", 20.0, 0.0, None, 0, IntFlag(1), None, 0)], Some("SAVE20"), 15.0, now)
            == Priced(20.0, -5.0)
  {
    GetByCodeFindsTheRow([PromoRow(2, "SAVE20", "fixed", 20.0, 0.0, None, 0, IntFlag(1), None, 0)], 0);
  }

  /** The route as written: the code goes to `validatePromoCode` and `createOrder` exactly as entered. */
  function PriceOrderAsWritten(rows: seq<PromoRow>, req: OrderRequest, now: int): Pricing {
    PriceWith(rows, req.promo_code, Subtotal(req.items), now)
  }

  /** The first seed row of `lib/database.ts`, with no expiry. */
  const Welcome10 := PromoRow(1, "WELCOME10", "percentage", 10.0, 50.0, Some(100), 0, IntFlag(1), None, 0)

  lemma KeyOfWelcome()
    ensures LookupKey("welcome10") == "WELCOME10"
  {
    Text.TrimUntouched("welcome10");
    UpperWelcome();
  }

  lemma UpperWelcome()
    ensures Text.ToUpper("welcome10") == "WELCOME10"
  {
    var u := Text.ToUpper("welcome10");
    assert u[0] == 'W' && u[1] == 'E' && u[2] == 'L' && u[3] == 'C' && u[4] == 'O';
    assert u[5] == 'M' && u[6] == 'E' && u[7] == '1' && u[8] == '0';
  }

  /** The checkout preview normalises "welcome10" to the stored code and accepts it on an order of 100. */
  lemma PreviewAcceptsLowerCase(code: string, now: int)
    requires code == "welcome10"
    ensures ValidateAndApplyPromoCode(code, 100.0, MapAll([Welcome10]), now).valid
  {
    KeyOfWelcome();
    WelcomeRecordFound();
    FirstMatchDecides(code, 100.0, MapAll([Welcome10]), now, 0);
    WelcomeRecordApplies(now);
  }

  lemma WelcomeRecordFound()
    ensures Find(MapAll([Welcome10]), "WELCOME10") == Some(0)
  {
    assert Text.IsUpperCase(Welcome10.code);
    RowFoundRecord([Welcome10], "WELCOME10", 0);
  }

  lemma WelcomeRecordApplies(now: int)
    ensures ApplyPromo(MapAll([Welcome10])[0], 100.0, now).valid
  {
    GetByCodeFindsTheRow([Welcome10], 0);
    assert CheckRow(Welcome10, 100.0, now).valid;
    RecordAgreement(Welcome10, 100.0, now);
  }

  /** The server looks "welcome10" up verbatim and finds nothing. */
  lemma ServerRefusesLowerCase(now: int)
    ensures ValidatePromoCode([Welcome10], "welcome10", 100.0, now) == Fail(NotFound)
  {
    assert "WELCOME10"[0] != "welcome10"[0];
  }

  /** The seed code on an order of 100 takes 10 off; on an order of 40 it is refused, naming its minimum of 50. */
  lemma Welcome10Scenarios(now: int)
    ensures ValidatePromoCode([Welcome10], "WELCOME10", 100.0, now)
            == Validation(true, AppliedServer, Some(10.0), Some(Welcome10))
    ensures ValidatePromoCode([Welcome10], "WELCOME10", 40.0, now) == Fail(MinimumOrder(50.0))
  {
    GetByCodeFindsTheRow([Welcome10], 0);
  }

  /**
   * The checkout preview accepts "welcome10", but the order route as written
   * looks up "welcome10" verbatim and refuses the order with "Promo code not
   * found".
   */
  lemma RawCodeRefusedAtOrder(req: OrderRequest, now: int)
    requires req.promo_code == Some("welcome10") && req.items == [OrderItemInput(1.0, 1.0, None, None, 100.0)]
    ensures ValidateAndApplyPromoCode("welcome10", Subtotal(req.items), MapAll([Welcome10]), now).valid
    ensures PriceOrderAsWritten([Welcome10], req, now) == PromoRejected(NotFound)
  {
    assert req.items[1..] == [];
    assert SubtotalFrom(0.0, req.items) == SubtotalFrom(0.0 + 100.0 * 1.0, []);
    PreviewAcceptsLowerCase("welcome10", now);
    ServerRefusesLowerCase(now);
  }

  /**
   * A code of white space alone is truthy, so the route as written looks it
   * up and refuses the order; it trims to "", which the checkout preview
   * skips and the corrected route treats as no code.
   */
  lemma BlankCodeRefusedAtOrder(rows: seq<PromoRow>, req: OrderRequest, now: int)
    requires req.promo_code == Some("  ")
    requires forall k :: 0 <= k < |rows| ==> rows[k].code != "  "
    ensures PriceOrderAsWritten(rows, req, now) == PromoRejected(NotFound)
    ensures Text.Trim("  ") == "" && !HasPromoCode(NormalizedPromo(req.promo_code))
  {
    assert Text.IsSpace("  "[0]) && Text.IsSpace("  "[1]);
    Text.TrimEmptyIffBlank("  ");
  }

  /** The code the route should send on: trimmed and upper-cased, as the checkout does. */
  function NormalizedPromo(promo: Option<string>): (r: Option<string>)
    ensures promo.None? ==> r.None?
    ensures promo.Some? ==> r == Some(LookupKey(promo.value))
  {
    match promo
    case None => None
    case Some(c) => Some(LookupKey(c))
  }

  /** The corrected route: the normalised code is validated and recorded. */
  function PriceOrder(rows: seq<PromoRow>, req: OrderRequest, now: int): Pricing {
    PriceWith(rows, NormalizedPromo(req.promo_code), Subtotal(req.items), now)
  }

  /**
   * With the correction, the order is priced with the promo exactly when the
   * checkout preview accepted the same code, and with the same discount.
   */
  lemma PriceOrderAgreesWithCheckout(rows: seq<PromoRow>, req: OrderRequest, now: int)
    requires StoredCanonically(rows)
    requires req.promo_code.Some? && LookupKey(req.promo_code.value) != ""
    ensures PriceOrder(rows, req, now).Priced?
            <==> ValidateAndApplyPromoCode(req.promo_code.value, Subtotal(req.items), MapAll(rows), now).valid
    ensures PriceOrder(rows, req, now).Priced? ==>
              PriceOrder(rows, req, now).discount_amount
              == ValidateAndApplyPromoCode(req.promo_code.value, Subtotal(req.items), MapAll(rows), now).discount
  {
    TableAgreement(rows, req.promo_code.value, Subtotal(req.items), now);
  }

  // ---------------------------------------------------------------------------
  // POST
  // ---------------------------------------------------------------------------

  /** The route's answers: the order placed, "Invalid order data" (400), or the promo message (400). */
  datatype Response = OrderPlaced(order: OrderRow) | InvalidOrderData | PromoError(message: Message)

  /** The argument handed to `createOrder` once the order is priced, with `promo` as the code it receives. */
  function OrderInputFor(req: OrderRequest, promo: Option<string>, p: Pricing): (o: OrderInput)
    requires p.Priced?
    ensures o.customer_name == req.customer_name && o.customer_email == req.customer_email
    ensures o.customer_phone == req.customer_phone && o.shipping_address == req.shipping_address
    ensures o.items == req.items && o.promo_code == promo
    ensures o.total_amount == p.total_amount && o.discount_amount == Some(p.discount_amount)
  {
    OrderInput(req.customer_name, req.customer_email, req.customer_phone, req.shipping_address,
               Some(p.discount_amount), p.total_amount, promo, req.items)
  }

  /**
   * `POST /api/orders` as written, against the database `store` at time `now`:
   * the promo code is validated, and handed to `createOrder`, exactly as the
   * body carries it.
   */
  method Post(store: Store, body: Json, isEmail: string -> bool, now: int) returns (resp: Response)
    requires store.Valid()
    modifies store
    ensures store.Valid()
    ensures ParseOrder(body, isEmail).None? ==> resp == InvalidOrderData && unchanged(store)
    ensures ParseOrder(body, isEmail).Some? ==>
              var req := ParseOrder(body, isEmail).value;
              var p := PriceOrderAsWritten(old(store.promoCodes), req, now);
              (p.PromoRejected? ==> resp == PromoError(p.message) && unchanged(store))
              && (p.Priced? ==>
                    resp.OrderPlaced? && store.orders == old(store.orders) + [resp.order]
                    && resp.order.total_amount + resp.order.discount_amount == Subtotal(req.items)
                    && resp.order.promo_code_id == PromoCodeId(old(store.promoCodes), req.promo_code)
                    && |store.orderItems| == |old(store.orderItems)| + |req.items|
                    && (HasPromoCode(req.promo_code) ==>
                          store.promoCodes == IncrementUses(old(store.promoCodes), req.promo_code.value))
                    && (!HasPromoCode(req.promo_code) ==> store.promoCodes == old(store.promoCodes))
                    && store.products == old(store.products))
  {
    var parsed := ParseOrder(body, isEmail);
    if parsed.None? {
      return InvalidOrderData;
    }
    var req := parsed.value;
    var pricing := PriceOrderAsWritten(store.promoCodes, req, now);
    if pricing.PromoRejected? {
      return PromoError(pricing.message);
    }
    var order := store.CreateOrder(OrderInputFor(req, req.promo_code, pricing), now);
    resp := OrderPlaced(order);
  }

  /**
   * The corrected route: the same steps with the normalised code, which is
   * validated and recorded, so the order gets the promo the checkout preview
   * showed.
   */
  method PostCorrected(store: Store, body: Json, isEmail: string -> bool, now: int) returns (resp: Response)
    requires store.Valid()
    modifies store
    ensures store.Valid()
    ensures ParseOrder(body, isEmail).None? ==> resp == InvalidOrderData && unchanged(store)
    ensures ParseOrder(body, isEmail).Some? ==>
              var req := ParseOrder(body, isEmail).value;
              var code := NormalizedPromo(req.promo_code);
              var p := PriceOrder(old(store.promoCodes), req, now);
              (p.PromoRejected? ==> resp == PromoError(p.message) && unchanged(store))
              && (p.Priced? ==>
                    resp.OrderPlaced? && store.orders == old(store.orders) + [resp.order]
                    && resp.order.total_amount + resp.order.discount_amount == Subtotal(req.items)
                    && resp.order.promo_code_id == PromoCodeId(old(store.promoCodes), code)
                    && |store.orderItems| == |old(store.orderItems)| + |req.items|
                    && (HasPromoCode(code) ==> store.promoCodes == IncrementUses(old(store.promoCodes), code.value))
                    && (!HasPromoCode(code) ==> store.promoCodes == old(store.promoCodes))
                    && store.products == old(store.products))
  {
    var parsed := ParseOrder(body, isEmail);
    if parsed.None? {
      return InvalidOrderData;
    }
    var req := parsed.value;
    var pricing := PriceOrder(store.promoCodes, req, now);
    if pricing.PromoRejected? {
      return PromoError(pricing.message);
    }
    var order := store.CreateOrder(OrderInputFor(req, NormalizedPromo(req.promo_code), pricing), now);
    resp := OrderPlaced(order);
  }
}
