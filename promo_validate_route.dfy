/**
 * `POST /api/promo-codes/validate` (`app/api/promo-codes/validate/route.ts`):
 * both fields are required, the code is upper-cased (not trimmed) and handed
 * to the server's evaluator, and the answer carries either the evaluator's
 * message or the discount and the record id.
 */
module PromoValidateRoute {
  import opened Wrappers
  import opened Json
  import opened Text
  import opened Tables
  import opened Promo
  import opened PromoCodeContext
  import opened PromoDiscount
  import opened PromoAgreement
  import opened DatabaseQueries

  /** JavaScript truthiness of a JSON value; an absent key is `undefined`, hence falsy. */
  predicate JsTruthy(v: Option<Json>) {
    match v
    case None => false
    case Some(j) =>
      match j
      case JNull => false
      case JBool(b) => b
      case JNum(n) => n != 0.0
      case JStr(s) => s != ""
      case _ => true
  }

  /** The route's answers: 400 for a missing field, the evaluator's verdict, or 500 when `code.toUpperCase` throws. */
  datatype Response =
    | MissingFields
    | Invalid(message: Message)
    | Valid(discountAmount: Option<real>, promoCodeId: Option<int>)
    | InternalError

  /** The answer shaped from the evaluator's result: the message on failure, the discount and record id on success. */
  function Answer(v: Validation): (r: Response)
    ensures r.Valid? <==> v.valid
    ensures !v.valid ==> r == Invalid(v.message)
    ensures r.Valid? ==> r.discountAmount == v.discount
    ensures r.Valid? ==> (r.promoCodeId.Some? <==> v.promoCode.Some?)
                         && (v.promoCode.Some? ==> r.promoCodeId.value == v.promoCode.value.id)
  {
    if !v.valid then Invalid(v.message)
    else Valid(v.discount, if v.promoCode.Some? then Some(v.promoCode.value.id) else None)
  }

  /**
   * `POST` with body fields `code` and `orderAmount` (`None` when absent)
   * against the promo table `rows` at time `now`.
   */
  function Post(rows: seq<PromoRow>, code: Option<Json>, orderAmount: Option<real>, now: int): (r: Response)
    ensures r == MissingFields <==> !JsTruthy(code) || orderAmount.None? || orderAmount.value == 0.0
    ensures r == InternalError <==> JsTruthy(code) && !code.value.JStr? && orderAmount.Some? && orderAmount.value != 0.0
    ensures JsTruthy(code) && code.value.JStr? && orderAmount.Some? && orderAmount.value != 0.0 ==>
              r == Answer(ValidatePromoCode(rows, ToUpper(code.value.s), orderAmount.value, now))
  {
    if !JsTruthy(code) || orderAmount.None? || orderAmount.value == 0.0 then MissingFields
    else if !code.value.JStr? then InternalError
    else Answer(ValidatePromoCode(rows, ToUpper(code.value.s), orderAmount.value, now))
  }

  /** An order amount of 0 is treated as missing. */
  lemma ZeroAmountIsMissing(rows: seq<PromoRow>, code: string, now: int)
    ensures Post(rows, Some(JStr(code)), Some(0.0), now) == MissingFields
  {
  }

  /** The code is upper-cased but not trimmed: " SAVE20" misses the stored "SAVE20". */
  lemma SurroundingSpaceNotTrimmed(code: string, now: int)
    requires code == " SAVE20"
    ensures Post([PromoRow(2, "SAVE20", "fixed", 20.0, 100.0, Some(50), 0, IntFlag(1), None, 0)], Some(JStr(code)), Some(150.0), now)
            == Invalid(NotFound)
  {
    assert ToUpper(code)[0] == ' ';
  }

  /**
   * For a code without surrounding white space, on a table with canonical
   * codes, the preview route and the checkout's evaluator agree on whether
   * the code applies and on the discount.
   */
  lemma PreviewAgreesWithCheckout(rows: seq<PromoRow>, code: string, amount: real, now: int)
    requires StoredCanonically(rows) && code != "" && Trim(code) == code && amount != 0.0
    ensures Post(rows, Some(JStr(code)), Some(amount), now).Valid?
            <==> ValidateAndApplyPromoCode(code, amount, MapAll(rows), now).valid
    ensures Post(rows, Some(JStr(code)), Some(amount), now).Valid? ==>
              Post(rows, Some(JStr(code)), Some(amount), now).discountAmount
              == Some(ValidateAndApplyPromoCode(code, amount, MapAll(rows), now).discount)
  {
    var key := ToUpper(code);
    assert LookupKey(code) == key;
    var v := ValidatePromoCode(rows, key, amount, now);
    assert JsTruthy(Some(JStr(code)));
    assert Post(rows, Some(JStr(code)), Some(amount), now) == Answer(v);
    TableAgreement(rows, code, amount, now);
  }

  /** The id sent back belongs to a stored row whose code is the upper-cased input. */
  lemma ReturnedIdNamesTheRow(rows: seq<PromoRow>, code: Option<Json>, orderAmount: Option<real>, now: int)
    requires Post(rows, code, orderAmount, now).Valid?
    ensures exists k :: 0 <= k < |rows| && rows[k].code == ToUpper(code.value.s)
                        && Post(rows, code, orderAmount, now).promoCodeId == Some(rows[k].id)
  {
    var p := ValidatePromoCode(rows, ToUpper(code.value.s), orderAmount.value, now).promoCode.value;
    var k :| 0 <= k < |rows| && rows[k] == p;
  }
}
