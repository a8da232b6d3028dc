/**
 * The checkout's own promo evaluator (`lib/promo-discount.ts`): find the first
 * active record whose upper-cased code equals the trimmed, upper-cased input,
 * then reject on expiry, on the usage cap and on the minimum order, in that
 * order; otherwise compute the discount.
 */
module PromoDiscount {
  import opened Wrappers
  import opened Text
  import opened Promo
  import opened PromoCodeContext

  /** `DiscountResult`; `discount` is 0 on every rejection and `code` is present only on success. */
  datatype DiscountResult = DiscountResult(valid: bool, message: Message, discount: real, code: Option<string>)

  /** The normalised form of an entered code: `code.trim().toUpperCase()`. */
  function LookupKey(code: string): string {
    ToUpper(Trim(code))
  }

  /** The lookup test of `promoCodes.find`: the upper-cased stored code equals the key, and the record is active. */
  predicate Matches(p: UiPromo, key: string) {
    ToUpper(p.code) == key && p.is_active
  }

  /** Index of the first record from `from` on that matches `key`. */
  function FindFrom(promos: seq<UiPromo>, key: string, from: nat): (r: Option<nat>)
    requires from <= |promos|
    ensures r.Some? ==> from <= r.value < |promos| && Matches(promos[r.value], key)
                        && forall j :: from <= j < r.value ==> !Matches(promos[j], key)
    ensures r.None? ==> forall j :: from <= j < |promos| ==> !Matches(promos[j], key)
    decreases |promos| - from
  {
    if from == |promos| then None
    else if Matches(promos[from], key) then Some(from)
    else FindFrom(promos, key, from + 1)
  }

  /** `promoCodes.find(...)`, as the index of the record found. */
  function Find(promos: seq<UiPromo>, key: string): (r: Option<nat>)
    ensures r.Some? ==> r.value < |promos| && Matches(promos[r.value], key)
                        && forall j :: 0 <= j < r.value ==> !Matches(promos[j], key)
    ensures r.None? ==> forall j :: 0 <= j < |promos| ==> !Matches(promos[j], key)
  {
    FindFrom(promos, key, 0)
  }

  /** A rejection: no discount, no code. */
  function Reject(m: Message): DiscountResult {
    DiscountResult(false, m, 0.0, None)
  }

  /** A found record passes every check. */
  predicate Eligible(p: UiPromo, subtotal: real, now: int) {
    !IsExpired(p.expires_at, now) && !UsageExhausted(p.max_uses, p.current_uses) && subtotal >= p.min_order_amount
  }

  /** The checks that follow a successful lookup, first failure first. */
  function ApplyPromo(p: UiPromo, subtotal: real, now: int): (r: DiscountResult)
    ensures r.valid <==> Eligible(p, subtotal, now)
    ensures r.valid ==> r == DiscountResult(true, AppliedClient, Discount(p.discount_type, p.discount_value, subtotal), Some(p.code))
    ensures !r.valid ==> r.discount == 0.0 && r.code == None
    ensures IsExpired(p.expires_at, now) ==> r.message == Expired
    ensures !IsExpired(p.expires_at, now) && UsageExhausted(p.max_uses, p.current_uses) ==> r.message == UsageLimitReached
    ensures (!IsExpired(p.expires_at, now) && !UsageExhausted(p.max_uses, p.current_uses) && subtotal < p.min_order_amount)
              ==> r.message == MinimumOrder(p.min_order_amount)
  {
    if IsExpired(p.expires_at, now) then Reject(Expired)
    else if UsageExhausted(p.max_uses, p.current_uses) then Reject(UsageLimitReached)
    else if subtotal < p.min_order_amount then Reject(MinimumOrder(p.min_order_amount))
    else
      var discount := Discount(p.discount_type, p.discount_value, subtotal);
      DiscountResult(true, AppliedClient, discount, Some(p.code))
  }

  /** `validateAndApplyPromoCode({ code, subtotal, promoCodes })` evaluated at time `now`. */
  function ValidateAndApplyPromoCode(code: string, subtotal: real, promoCodes: seq<UiPromo>, now: int): (r: DiscountResult)
    ensures !r.valid ==> r.discount == 0.0 && r.code == None
    ensures r.valid <==> r.message == AppliedClient
    ensures (forall k :: 0 <= k < |promoCodes| ==> !Matches(promoCodes[k], LookupKey(code))) ==> r == Reject(NotFoundOrInactive)
  {
    match Find(promoCodes, LookupKey(code))
    case None => Reject(NotFoundOrInactive)
    case Some(k) => ApplyPromo(promoCodes[k], subtotal, now)
  }

  /** The first active record whose code matches decides the result; a later duplicate never does. */
  lemma FirstMatchDecides(code: string, subtotal: real, promoCodes: seq<UiPromo>, now: int, k: nat)
    requires k < |promoCodes| && Matches(promoCodes[k], LookupKey(code))
    requires forall j :: 0 <= j < k ==> !Matches(promoCodes[j], LookupKey(code))
    ensures ValidateAndApplyPromoCode(code, subtotal, promoCodes, now) == ApplyPromo(promoCodes[k], subtotal, now)
  {
    var f := Find(promoCodes, LookupKey(code));
    assert f.Some?;
    assert f.value == k;
  }

  /** A successful result names a stored code that matches the input and whose record is active. */
  lemma SuccessNamesMatchingRecord(code: string, subtotal: real, promoCodes: seq<UiPromo>, now: int)
    requires ValidateAndApplyPromoCode(code, subtotal, promoCodes, now).valid
    ensures exists k :: 0 <= k < |promoCodes| && Matches(promoCodes[k], LookupKey(code))
              && ValidateAndApplyPromoCode(code, subtotal, promoCodes, now).code == Some(promoCodes[k].code)
  {
    var k := Find(promoCodes, LookupKey(code)).value;
    assert Matches(promoCodes[k], LookupKey(code));
  }

  /** An inactive record is never the one found, whatever its code. */
  lemma InactiveNeverFound(promoCodes: seq<UiPromo>, key: string)
    ensures Find(promoCodes, key).Some? ==> promoCodes[Find(promoCodes, key).value].is_active
  {
  }

  /** The input code matters only through `code.trim().toUpperCase()`. */
  lemma DependsOnNormalizedCode(c1: string, c2: string, subtotal: real, promoCodes: seq<UiPromo>, now: int)
    requires LookupKey(c1) == LookupKey(c2)
    ensures ValidateAndApplyPromoCode(c1, subtotal, promoCodes, now) == ValidateAndApplyPromoCode(c2, subtotal, promoCodes, now)
  {
  }

  /** When both the usage cap and the minimum order fail, the usage message wins. */
  lemma UsageReportedBeforeMinimum(p: UiPromo, subtotal: real, now: int)
    requires !IsExpired(p.expires_at, now)
    requires UsageExhausted(p.max_uses, p.current_uses) && subtotal < p.min_order_amount
    ensures ApplyPromo(p, subtotal, now).message == UsageLimitReached
  {
  }

  /** A flat discount is not capped at the subtotal: a fixed 20 off a subtotal of 15 is accepted as 20. */
  lemma FixedDiscountNotClamped(p: UiPromo, now: int)
    requires p.discount_type == "fixed" && p.discount_value == 20.0 && p.min_order_amount == 0.0
    requires p.expires_at.None? && p.max_uses.None?
    ensures ApplyPromo(p, 15.0, now).valid && ApplyPromo(p, 15.0, now).discount == 20.0
  {
  }
}
