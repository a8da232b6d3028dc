/**
 * The checkout dialog (`components/checkout-modal.tsx`). It loads the promo
 * codes (mapping `active` to `is_active`), previews an entered code with the
 * client-side evaluator, shows the discounted total clamped at 0, and submits
 * the order as a JSON body for `POST /api/orders`. The 300 ms delay, the
 * loading flag, toasts and the confirmation email are not modelled; the
 * server's verdict on the submitted body is a parameter.
 */
module CheckoutModal {
  import opened Wrappers
  import opened Json
  import opened Text
  import opened Tables
  import opened Promo
  import opened PromoCodeContext
  import opened PromoDiscount
  import opened DatabaseQueries
  import CartLines
  import UseCart
  import OrdersRoute

  /** The customer form. */
  datatype CustomerInfo = CustomerInfo(name: string, email: string, phone: string, address: string)

  /** `!customerInfo.name || !customerInfo.email || !customerInfo.address` fails. */
  predicate FormComplete(info: CustomerInfo) {
    info.name != "" && info.email != "" && info.address != ""
  }

  // ---------------------------------------------------------------------------
  // The submitted body
  // ---------------------------------------------------------------------------

  /** `Number.parseInt(item.id)`, which `JSON.stringify` writes as `null` when it is `NaN`. */
  function ProductIdJson(id: string): Json {
    match ParseInt(id)
    case Some(n) => JNum(n as real)
    case None => JNull
  }

  /** One element of `items.map(...)` in the body. */
  function PayloadItem(item: CartLines.CartItem): Json {
    JObj(map["size" := JStr(item.size)] + map["color" := JStr(item.color)]
         + map["product_id" := ProductIdJson(item.id), "quantity" := JNum(item.quantity), "price" := JNum(item.price)])
  }

  function PayloadItems(items: seq<CartLines.CartItem>): (js: seq<Json>)
    ensures |js| == |items| && forall k :: 0 <= k < |items| ==> js[k] == PayloadItem(items[k])
  {
    seq(|items|, k requires 0 <= k < |items| => PayloadItem(items[k]))
  }

  /** The body: the phone is always sent, `promo_code: promoCode || undefined` drops an empty code. */
  function OrderPayload(info: CustomerInfo, promoCode: string, items: seq<CartLines.CartItem>): Json {
    JObj(map["customer_phone" := JStr(info.phone)]
         + (if promoCode != "" then map["promo_code" := JStr(promoCode)] else map[])
         + map["customer_name" := JStr(info.name), "customer_email" := JStr(info.email),
               "shipping_address" := JStr(info.address), "items" := JArr(PayloadItems(items))])
  }

  /** The order item the server reads from a submittable line. */
  function InputFor(item: CartLines.CartItem): OrderItemInput
    requires ParseInt(item.id).Some?
  {
    OrderItemInput(ParseInt(item.id).value as real, item.quantity, Some(item.size), Some(item.color), item.price)
  }

  function InputsFor(items: seq<CartLines.CartItem>): (r: seq<OrderItemInput>)
    requires forall k :: 0 <= k < |items| ==> ParseInt(items[k].id).Some?
    ensures |r| == |items| && forall k :: 0 <= k < |items| ==> r[k] == InputFor(items[k])
  {
    seq(|items|, k requires 0 <= k < |items| => InputFor(items[k]))
  }

  /** The request the server parses out of the body. */
  function RequestFor(info: CustomerInfo, promoCode: string, items: seq<CartLines.CartItem>): OrdersRoute.OrderRequest
    requires forall k :: 0 <= k < |items| ==> ParseInt(items[k].id).Some?
  {
    OrdersRoute.OrderRequest(info.name, info.email, Some(info.phone), info.address,
                             if promoCode != "" then Some(promoCode) else None, InputsFor(items))
  }

  lemma PayloadItemIsEncoded(item: CartLines.CartItem)
    requires ParseInt(item.id).Some?
    ensures PayloadItem(item) == OrdersRoute.EncodeItem(InputFor(item))
  {
  }

  lemma PayloadIsEncoded(info: CustomerInfo, promoCode: string, items: seq<CartLines.CartItem>)
    requires forall k :: 0 <= k < |items| ==> ParseInt(items[k].id).Some?
    ensures OrderPayload(info, promoCode, items) == OrdersRoute.EncodeOrder(RequestFor(info, promoCode, items))
  {
    var req := RequestFor(info, promoCode, items);
    forall k | 0 <= k < |items| ensures PayloadItems(items)[k] == OrdersRoute.EncodeItems(req.items)[k] {
      PayloadItemIsEncoded(items[k]);
    }
    assert PayloadItems(items) == OrdersRoute.EncodeItems(req.items);
  }

  /** Lines with the same prices and quantities sum alike. */
  lemma {:induction false} LineSumsAgree(inputs: seq<OrderItemInput>, items: seq<CartLines.CartItem>)
    requires |inputs| == |items|
    requires forall k :: 0 <= k < |items| ==> inputs[k].price == items[k].price && inputs[k].quantity == items[k].quantity
    ensures OrdersRoute.LineSum(inputs) == CartLines.LineSum(items)
  {
    if items != [] {
      LineSumsAgree(inputs[1..], items[1..]);
    }
  }

  /**
   * A complete form with an address the email check accepts and a non-empty
   * cart of submittable lines produces a body the server's schema accepts,
   * and the server reads from it exactly the cart's lines, the phone as typed,
   * the promo code as typed, and a subtotal equal to the cart total.
   */
  lemma SubmittedOrderAccepted(info: CustomerInfo, promoCode: string, items: seq<CartLines.CartItem>, isEmail: string -> bool)
    requires FormComplete(info) && isEmail(info.email)
    requires |items| >= 1 && forall k :: 0 <= k < |items| ==> ParseInt(items[k].id).Some?
    requires forall k :: 0 <= k < |items| ==> items[k].quantity >= 1.0 && items[k].price >= 0.0
    ensures OrdersRoute.ParseOrder(OrderPayload(info, promoCode, items), isEmail) == Some(RequestFor(info, promoCode, items))
    ensures OrdersRoute.Subtotal(RequestFor(info, promoCode, items).items) == CartLines.Total(items)
  {
    RequestIsValid(info, promoCode, items, isEmail);
    PayloadIsEncoded(info, promoCode, items);
    OrdersRoute.ParseEncodeOrder(RequestFor(info, promoCode, items), isEmail);
    SubtotalIsCartTotal(items);
  }

  lemma RequestIsValid(info: CustomerInfo, promoCode: string, items: seq<CartLines.CartItem>, isEmail: string -> bool)
    requires FormComplete(info) && isEmail(info.email)
    requires |items| >= 1 && forall k :: 0 <= k < |items| ==> ParseInt(items[k].id).Some?
    requires forall k :: 0 <= k < |items| ==> items[k].quantity >= 1.0 && items[k].price >= 0.0
    ensures OrdersRoute.ValidRequest(RequestFor(info, promoCode, items), isEmail)
  {
    var req := RequestFor(info, promoCode, items);
    assert forall k :: 0 <= k < |req.items| ==> req.items[k] == InputFor(items[k]);
  }

  lemma SubtotalIsCartTotal(items: seq<CartLines.CartItem>)
    requires forall k :: 0 <= k < |items| ==> ParseInt(items[k].id).Some?
    ensures OrdersRoute.Subtotal(InputsFor(items)) == CartLines.Total(items)
  {
    OrdersRoute.SubtotalFromIsLineSum(0.0, InputsFor(items));
    CartLines.TotalFromIsLineSum(0.0, items);
    LineSumsAgree(InputsFor(items), items);
  }

  /**
   * What `handleApplyPromo` decides: nothing for a code that is blank once
   * trimmed, and otherwise the evaluator's result on the entered code.
   */
  function PromoOutcome(code: string, regularSubtotal: real, promoCodes: seq<UiPromo>, now: int): (o: Option<DiscountResult>)
    ensures o.Some? ==> o.value == ValidateAndApplyPromoCode(code, regularSubtotal, promoCodes, now)
  {
    if Trim(code) == "" then None else Some(ValidateAndApplyPromoCode(code, regularSubtotal, promoCodes, now))
  }

  /** Only a code made of white space alone is ignored. */
  lemma IgnoredIffBlank(code: string, regularSubtotal: real, promoCodes: seq<UiPromo>, now: int)
    ensures PromoOutcome(code, regularSubtotal, promoCodes, now).None? <==> IsBlankText(code)
  {
    TrimEmptyIffBlank(code);
  }

  /** A cart line whose id is not a number is sent as `"product_id": null`, and the server refuses the whole order. */
  lemma NonNumericIdRefused(info: CustomerInfo, promoCode: string, items: seq<CartLines.CartItem>, isEmail: string -> bool, k: nat)
    requires k < |items| && ParseInt(items[k].id).None?
    ensures OrdersRoute.ParseOrder(OrderPayload(info, promoCode, items), isEmail) == None
  {
    var js := PayloadItems(items);
    NullIdItemRefused(items[k]);
    assert OrdersRoute.ParseItem(js[k]) == None;
    assert OrdersRoute.ParseItems(js) == None;
    var f := OrderPayload(info, promoCode, items).fields;
    assert "items" in f && f["items"] == JArr(js);
    OrdersRoute.BadItemsRefused(f, isEmail);
  }

  lemma NullIdItemRefused(item: CartLines.CartItem)
    requires ParseInt(item.id).None?
    ensures OrdersRoute.ParseItem(PayloadItem(item)) == None
  {
    var f := PayloadItem(item).fields;
    assert ProductIdJson(item.id) == JNull;
    assert "product_id" in f && f["product_id"] == ProductIdJson(item.id);
    OrdersRoute.NullProductIdRefused(f);
  }

  // ---------------------------------------------------------------------------
  // The dialog's state
  // ---------------------------------------------------------------------------

  class CheckoutModal {
    var promoCodes: seq<UiPromo>
    var promoCode: string
    var discount: real
    var promoApplied: bool
    var promoMessage: Option<Message>
    var customerInfo: CustomerInfo

    /** A discount is only held while a code is applied. */
    ghost predicate Valid()
      reads this
    {
      !promoApplied ==> discount == 0.0
    }

    /** The initial `useState` values. */
    constructor ()
      ensures promoCodes == [] && promoCode == "" && discount == 0.0 && !promoApplied && promoMessage == None
      ensures customerInfo == CustomerInfo("", "", "", "")
      ensures Valid()
    {
      promoCodes := [];
      promoCode := "";
      discount := 0.0;
      promoApplied := false;
      promoMessage := None;
      customerInfo := CustomerInfo("", "", "", "");
    }

    /** The fetch on open: `(data.promoCodes || []).map(...)` with `active` mapped to `is_active`. */
    method LoadPromoCodes(rows: seq<PromoRow>)
      modifies this
      ensures promoCodes == MapAll(rows)
      ensures promoCode == old(promoCode) && discount == old(discount) && promoApplied == old(promoApplied)
      ensures promoMessage == old(promoMessage) && customerInfo == old(customerInfo)
    {
      promoCodes := MapAll(rows);
    }

    /** `finalTotal`: the discount comes off only while a positive one is applied, and the total never drops below 0 then. */
    function FinalTotal(regularSubtotal: real): (t: real)
      reads this
      ensures promoApplied && discount > 0.0 ==> t >= 0.0 && (regularSubtotal >= discount ==> t == regularSubtotal - discount)
      ensures promoApplied && discount > 0.0 && regularSubtotal < discount ==> t == 0.0
      ensures t == regularSubtotal <==> !(promoApplied && discount > 0.0) || regularSubtotal == 0.0
      ensures regularSubtotal >= 0.0 ==> 0.0 <= t <= regularSubtotal
    {
      if promoApplied && discount > 0.0 then (if regularSubtotal - discount > 0.0 then regularSubtotal - discount else 0.0)
      else regularSubtotal
    }

    /** The promo input's `onChange`: a new code clears whatever was applied. */
    method OnPromoInput(value: string)
      modifies this
      ensures promoCode == value && !promoApplied && discount == 0.0 && promoMessage == None
      ensures promoCodes == old(promoCodes) && customerInfo == old(customerInfo)
      ensures Valid()
    {
      promoCode := value;
      promoApplied := false;
      discount := 0.0;
      promoMessage := None;
    }

    /** `handleApplyPromo` over the cart's current total: a blank code does nothing; otherwise the verdict is recorded. */
    method ApplyPromo(cart: UseCart.UseCart, now: int)
      modifies this
      ensures var o := PromoOutcome(old(promoCode), cart.GetTotal(), old(promoCodes), now);
              if o.None? then
                discount == old(discount) && promoApplied == old(promoApplied) && promoMessage == old(promoMessage)
              else
                promoApplied == o.value.valid && discount == o.value.discount && promoMessage == Some(o.value.message)
      ensures promoCode == old(promoCode) && promoCodes == old(promoCodes) && customerInfo == old(customerInfo)
      ensures old(Valid()) ==> Valid()
    {
      var outcome := PromoOutcome(promoCode, cart.GetTotal(), promoCodes, now);
      if outcome.None? {
        return;
      }
      var result := outcome.value;
      if result.valid {
        discount := result.discount;
        promoApplied := true;
        promoMessage := Some(result.message);
      } else {
        discount := 0.0;
        promoApplied := false;
        promoMessage := Some(result.message);
      }
    }

    /** The customer fields' `onChange`. */
    method SetCustomerInfo(info: CustomerInfo)
      modifies this
      ensures customerInfo == info
      ensures promoCodes == old(promoCodes) && promoCode == old(promoCode) && discount == old(discount)
      ensures promoApplied == old(promoApplied) && promoMessage == old(promoMessage)
    {
      customerInfo := info;
    }

    /**
     * `handleSubmitOrder`: an incomplete form sends nothing and keeps the cart;
     * otherwise the body is sent, and the cart is cleared when the server
     * answers with success (`serverAccepted`, the response's `ok`).
     */
    method SubmitOrder(cart: UseCart.UseCart, serverAccepted: bool) returns (sent: Option<Json>)
      modifies cart
      ensures !FormComplete(customerInfo) ==> sent == None && cart.items == old(cart.items)
      ensures FormComplete(customerInfo) ==>
                sent == Some(OrderPayload(customerInfo, promoCode, old(cart.items)))
                && cart.items == (if serverAccepted then [] else old(cart.items))
    {
      if customerInfo.name == "" || customerInfo.email == "" || customerInfo.address == "" {
        return None;
      }
      sent := Some(OrderPayload(customerInfo, promoCode, cart.items));
      if serverAccepted {
        cart.ClearCart();
      }
    }
  }
}
