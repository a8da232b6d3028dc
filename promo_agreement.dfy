/**
 * How the checkout's promo evaluator (`lib/promo-discount.ts`) and the
 * server's (`lib/database-queries.ts`) relate. On the same active record they
 * agree on validity and discount and differ in wording, plus in one verdict:
 * a code that is both used up and below its minimum gets a different
 * message from each side. On a whole table whose codes are stored upper-case,
 * evaluating the entered code on the client agrees with evaluating its
 * normalised form on the server.
 */
module PromoAgreement {
  import opened Wrappers
  import opened Text
  import opened Tables
  import opened Promo
  import opened PromoCodeContext
  import opened PromoDiscount
  import opened DatabaseQueries

  /** The client's and the server's words for the same verdict. */
  predicate SameVerdict(c: Message, s: Message) {
    match c
    case NotFoundOrInactive => s == NotFound || s == Inactive
    case AppliedClient => s == AppliedServer
    case _ => c == s
  }

  /** Both evaluators, one active record: validity and discount agree; the verdicts part only when usage and minimum both fail. */
  lemma RecordAgreement(row: PromoRow, amount: real, now: int)
    requires Truthy(row.active)
    ensures ApplyPromo(MapPromo(row), amount, now).valid == CheckRow(row, amount, now).valid
    ensures ApplyPromo(MapPromo(row), amount, now).discount == CheckRow(row, amount, now).discount.GetOr(0.0)
    ensures !SameVerdict(ApplyPromo(MapPromo(row), amount, now).message, CheckRow(row, amount, now).message) <==>
              !IsExpired(row.expires_at, now) && UsageExhausted(row.max_uses, row.current_uses) && amount < row.min_order_amount
    ensures !SameVerdict(ApplyPromo(MapPromo(row), amount, now).message, CheckRow(row, amount, now).message) ==>
              ApplyPromo(MapPromo(row), amount, now).message == UsageLimitReached
              && CheckRow(row, amount, now).message == MinimumOrder(row.min_order_amount)
  {
  }

  /** The table as the admin create route leaves it: unique codes, all stored upper-case. */
  predicate StoredCanonically(rows: seq<PromoRow>) {
    UniqueCodes(rows) && forall k :: 0 <= k < |rows| ==> IsUpperCase(rows[k].code)
  }

  /** With canonical codes, a UI record matches the normalised key exactly when its row has that code and is active. */
  lemma MatchesIffStored(rows: seq<PromoRow>, key: string, k: nat)
    requires StoredCanonically(rows) && k < |rows|
    ensures Matches(MapAll(rows)[k], key) <==> rows[k].code == key && Truthy(rows[k].active)
  {
    ToUpperCanonical(rows[k].code);
  }

  /** No row carries the key: the client finds no record either. */
  lemma NoRowNoRecord(rows: seq<PromoRow>, key: string)
    requires StoredCanonically(rows) && GetPromoCodeByCode(rows, key).None?
    ensures Find(MapAll(rows), key).None?
  {
    forall k | 0 <= k < |rows| ensures !Matches(MapAll(rows)[k], key) {
      MatchesIffStored(rows, key, k);
    }
  }

  /** Row `j` carries the key: the client finds record `j` if it is active, and nothing otherwise. */
  lemma RowFoundRecord(rows: seq<PromoRow>, key: string, j: nat)
    requires StoredCanonically(rows) && j < |rows| && rows[j].code == key
    ensures Find(MapAll(rows), key) == if Truthy(rows[j].active) then Some(j) else None
  {
    forall k | 0 <= k < |rows| && k != j ensures !Matches(MapAll(rows)[k], key) {
      MatchesIffStored(rows, key, k);
      if k < j { assert rows[k].code != rows[j].code; } else { assert rows[j].code != rows[k].code; }
    }
    MatchesIffStored(rows, key, j);
  }

  /**
   * The whole-table agreement: the client evaluating the entered code over
   * the mapped records, and the server evaluating its normalised form over
   * the rows, agree on validity, on the discount and on the code applied.
   */
  lemma TableAgreement(rows: seq<PromoRow>, code: string, amount: real, now: int)
    requires StoredCanonically(rows)
    ensures ValidateAndApplyPromoCode(code, amount, MapAll(rows), now).valid
            == ValidatePromoCode(rows, LookupKey(code), amount, now).valid
    ensures ValidateAndApplyPromoCode(code, amount, MapAll(rows), now).discount
            == ValidatePromoCode(rows, LookupKey(code), amount, now).discount.GetOr(0.0)
    ensures ValidateAndApplyPromoCode(code, amount, MapAll(rows), now).valid ==>
              ValidateAndApplyPromoCode(code, amount, MapAll(rows), now).code
              == Some(ValidatePromoCode(rows, LookupKey(code), amount, now).promoCode.value.code)
  {
    var key := LookupKey(code);
    var found := GetPromoCodeByCode(rows, key);
    if found.None? {
      NoRowNoRecord(rows, key);
    } else {
      var j :| 0 <= j < |rows| && rows[j] == found.value;
      RowFoundRecord(rows, key, j);
      if Truthy(rows[j].active) {
        RecordAgreement(rows[j], amount, now);
      }
    }
  }
}
