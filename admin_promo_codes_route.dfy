/**
 * `POST /api/admin/promo-codes` (`app/api/admin/promo-codes/route.ts`): the
 * body is checked against `promoCodeSchema`, which upper-cases the code and
 * fills in defaults; a body that fails is answered with 400 and nothing is
 * created, otherwise the parsed record is what `createPromoCode` receives.
 */
module AdminPromoCodesRoute {
  import opened Wrappers
  import opened Json
  import opened Text
  import opened Schema

  /** The output of `promoCodeSchema`. */
  datatype PromoCodeData = PromoCodeData(
    code: string,
    discount_type: string,
    discount_value: real,
    min_order_amount: real,
    max_uses: Option<real>,
    active: bool,
    expires_at: Option<string>)

  /** What the schema guarantees of its output. */
  predicate WellFormed(d: PromoCodeData) {
    d.code != [] && IsUpperCase(d.code)
    && (d.discount_type == "percentage" || d.discount_type == "fixed")
    && d.discount_value >= 0.0 && d.min_order_amount >= 0.0
    && (d.max_uses.Some? ==> d.max_uses.value >= 1.0)
  }

  /** `promoCodeSchema.parse(body)`, `None` when zod throws. Unknown keys are dropped. */
  function ParsePromoCode(body: Json): (r: Option<PromoCodeData>)
    ensures r.Some? ==> body.JObj? && WellFormed(r.value)
    ensures r.Some? ==> "code" in body.fields && body.fields["code"].JStr? && r.value.code == ToUpper(body.fields["code"].s)
    ensures r.Some? && "min_order_amount" !in body.fields ==> r.value.min_order_amount == 0.0
    ensures r.Some? && "active" !in body.fields ==> r.value.active
  {
    if !body.JObj? then None
    else
      var f := body.fields;
      var code := Str(Get(f, "code"), 1);
      var discountType := OneOf(Get(f, "discount_type"), ["percentage", "fixed"]);
      var discountValue := Num(Get(f, "discount_value"), Some(0.0));
      var minOrder := NumOr(Get(f, "min_order_amount"), 0.0, 0.0);
      var maxUses := OptNum(Get(f, "max_uses"), 1.0);
      var active := BoolOr(Get(f, "active"), true);
      var expiresAt := OptStr(Get(f, "expires_at"));
      if code.None? || discountType.None? || discountValue.None? || minOrder.None?
         || maxUses.None? || active.None? || expiresAt.None? then None
      else
        ToUpperCanonical(code.value);
        Some(PromoCodeData(ToUpper(code.value), discountType.value, discountValue.value, minOrder.value,
                           maxUses.value, active.value, expiresAt.value))
  }

  /** The request body that submits `d` with every field written out. */
  function Encode(d: PromoCodeData): Json {
    JObj(map["code" := JStr(d.code), "discount_type" := JStr(d.discount_type),
             "discount_value" := JNum(d.discount_value), "min_order_amount" := JNum(d.min_order_amount),
             "active" := JBool(d.active)]
         + (if d.max_uses.Some? then map["max_uses" := JNum(d.max_uses.value)] else map[])
         + (if d.expires_at.Some? then map["expires_at" := JStr(d.expires_at.value)] else map[]))
  }

  /** Every well-formed record is accepted exactly as submitted: the schema loses nothing. */
  lemma ParseEncode(d: PromoCodeData)
    requires WellFormed(d)
    ensures ParsePromoCode(Encode(d)) == Some(d)
  {
    ToUpperCanonical(d.code);
    EncodeRequiredFields(d);
    EncodeOptionalFields(d);
  }

  /** The keys every encoded body carries. */
  lemma EncodeRequiredFields(d: PromoCodeData)
    ensures var f := Encode(d).fields;
            Get(f, "code") == Some(JStr(d.code)) && Get(f, "discount_type") == Some(JStr(d.discount_type))
            && Get(f, "discount_value") == Some(JNum(d.discount_value))
            && Get(f, "min_order_amount") == Some(JNum(d.min_order_amount)) && Get(f, "active") == Some(JBool(d.active))
  {
  }

  /** The keys present only when the record has a value for them. */
  lemma EncodeOptionalFields(d: PromoCodeData)
    ensures var f := Encode(d).fields;
            Get(f, "max_uses") == (if d.max_uses.Some? then Some(JNum(d.max_uses.value)) else None)
            && Get(f, "expires_at") == (if d.expires_at.Some? then Some(JStr(d.expires_at.value)) else None)
  {
  }

  /** Parsing is stable: submitting what the schema produced yields the same record. */
  lemma ParseIsCanonical(body: Json)
    requires ParsePromoCode(body).Some?
    ensures ParsePromoCode(Encode(ParsePromoCode(body).value)) == ParsePromoCode(body)
  {
    ParseEncode(ParsePromoCode(body).value);
  }

  /** The code is stored upper-cased and the type must be spelled exactly: "save20" becomes "SAVE20", "Fixed" is refused. */
  lemma CodeUpperCasedTypeExact()
    ensures ParsePromoCode(JObj(map["code" := JStr("save20"), "discount_type" := JStr("fixed"), "discount_value" := JNum(20.0)]))
            == Some(PromoCodeData("SAVE20", "fixed", 20.0, 0.0, None, true, None))
    ensures ParsePromoCode(JObj(map["code" := JStr("SAVE20"), "discount_type" := JStr("Fixed"), "discount_value" := JNum(20.0)]))
            == None
  {
    var ok := map["code" := JStr("save20"), "discount_type" := JStr("fixed"), "discount_value" := JNum(20.0)];
    assert Get(ok, "max_uses") == None && Get(ok, "active") == None && Get(ok, "expires_at") == None;
    assert Get(ok, "min_order_amount") == None;
    assert ToUpper("save20") == "SAVE20";
    var bad := map["code" := JStr("SAVE20"), "discount_type" := JStr("Fixed"), "discount_value" := JNum(20.0)];
    assert Get(bad, "discount_type") == Some(JStr("Fixed"));
    assert "Fixed" != "fixed" && "Fixed" != "percentage" by { assert "Fixed"[0] != "fixed"[0]; }
  }

  /** The route's answer. */
  datatype Response = Created(data: PromoCodeData) | InvalidPromoCodeData

  /** `POST`: 400 on a schema failure, otherwise the parsed record goes to `createPromoCode`. */
  function Post(body: Json): (r: Response)
    ensures r == InvalidPromoCodeData <==> ParsePromoCode(body).None?
    ensures r.Created? ==> WellFormed(r.data)
  {
    match ParsePromoCode(body)
    case None => InvalidPromoCodeData
    case Some(d) => Created(d)
  }
}
