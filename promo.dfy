/**
 * What the two promo-code evaluators share: the result messages and the
 * individual checks, each exactly as both copies write it.
 */
module Promo {
  import opened Wrappers

  /** The messages the evaluators return; each stands for the literal string given by `MessageText`. */
  datatype Message =
    | NotFoundOrInactive
    | NotFound
    | Inactive
    | Expired
    | UsageLimitReached
    | MinimumOrder(amount: real)
    | AppliedClient
    | AppliedServer

  /** The user-visible text; `render` is JavaScript's rendering of a number inside a template string. */
  function MessageText(m: Message, render: real -> string): string {
    match m
    case NotFoundOrInactive => "Promo code not found or inactive"
    case NotFound => "Promo code not found"
    case Inactive => "Promo code is inactive"
    case Expired => "Promo code has expired"
    case UsageLimitReached => "Promo code usage limit reached"
    case MinimumOrder(amount) => "Minimum order amount of $" + render(amount) + " required"
    case AppliedClient => "Promo code applied successfully!"
    case AppliedServer => "Promo code applied successfully"
  }

  /** `expires_at && new Date(expires_at) < now`: strictly earlier than the evaluation time. */
  predicate IsExpired(expires_at: Option<int>, now: int) {
    expires_at.Some? && expires_at.value < now
  }

  /** `max_uses && current_uses >= max_uses`: an absent or zero cap never blocks. */
  predicate UsageExhausted(max_uses: Option<int>, current_uses: int) {
    max_uses.Some? && max_uses.value != 0 && current_uses >= max_uses.value
  }

  /** `percentage` takes that share of the amount; every other type is a flat amount. */
  function Discount(discount_type: string, discount_value: real, amount: real): real {
    if discount_type == "percentage" then amount * discount_value / 100.0 else discount_value
  }

  /** Expiry is strict: a code that expires exactly now is still usable, one that expired a tick ago is not. */
  lemma ExpiryBoundary(t: int)
    ensures !IsExpired(Some(t), t)
    ensures IsExpired(Some(t), t + 1)
    ensures !IsExpired(None, t)
  {
  }

  /** A cap of 5 blocks at 5 uses and admits at 4; a cap of 0 or none is unlimited. */
  lemma UsageBoundary(uses: int)
    ensures UsageExhausted(Some(5), 5) && !UsageExhausted(Some(5), 4)
    ensures !UsageExhausted(Some(0), uses) && !UsageExhausted(None, uses)
  {
  }

  /** A percentage discount of at most 100 on a non-negative amount never exceeds the amount. */
  lemma PercentageWithinAmount(value: real, amount: real)
    requires 0.0 <= value <= 100.0 && amount >= 0.0
    ensures 0.0 <= Discount("percentage", value, amount) <= amount
  {
    assert amount * value <= amount * 100.0;
  }
}
