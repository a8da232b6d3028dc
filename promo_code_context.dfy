/**
 * The admin UI's promo-code list (`components/admin/promo-code-context.tsx`):
 * backend rows are mapped to the UI shape, and the list is updated by
 * prepending, merging by id and deleting by id.
 */
module PromoCodeContext {
  import opened Wrappers
  import opened Tables
  import Seqs

  /** The UI shape of a promo code: the backend row with `active` replaced by `is_active`. */
  datatype UiPromo = UiPromo(
    id: int,
    code: string,
    discount_type: string,
    discount_value: real,
    min_order_amount: real,
    max_uses: Option<int>,
    current_uses: int,
    is_active: bool,
    expires_at: Option<int>,
    created_at: int)

  /** A `Partial<PromoCode>`: each present field overrides the record's. */
  datatype UiPromoPatch = UiPromoPatch(
    id: Option<int>,
    code: Option<string>,
    discount_type: Option<string>,
    discount_value: Option<real>,
    min_order_amount: Option<real>,
    max_uses: Option<Option<int>>,
    current_uses: Option<int>,
    is_active: Option<bool>,
    expires_at: Option<Option<int>>,
    created_at: Option<int>)

  /** The patch with no field present. */
  const EmptyPatch := UiPromoPatch(None, None, None, None, None, None, None, None, None, None)

  /** Every field except `active` is carried over; `active` becomes the boolean `is_active`. */
  predicate SameExceptActive(row: PromoRow, p: UiPromo) {
    p.id == row.id && p.code == row.code && p.discount_type == row.discount_type
    && p.discount_value == row.discount_value && p.min_order_amount == row.min_order_amount
    && p.max_uses == row.max_uses && p.current_uses == row.current_uses
    && p.expires_at == row.expires_at && p.created_at == row.created_at
  }

  /** `mapPromo`: drop `active`, add `is_active = Boolean(active)`, keep the rest. */
  function MapPromo(row: PromoRow): (p: UiPromo)
    ensures SameExceptActive(row, p)
    ensures p.is_active == Truthy(row.active)
  {
    UiPromo(row.id, row.code, row.discount_type, row.discount_value, row.min_order_amount,
            row.max_uses, row.current_uses, Truthy(row.active), row.expires_at, row.created_at)
  }

  /** Two rows look the same in the UI exactly when they differ at most in how `active` is stored. */
  lemma MapPromoForgetsOnlyFlagEncoding(r1: PromoRow, r2: PromoRow)
    ensures MapPromo(r1) == MapPromo(r2) <==>
              r1.(active := BoolFlag(Truthy(r1.active))) == r2.(active := BoolFlag(Truthy(r2.active)))
  {
  }

  /** `codes.map(mapPromo)`. */
  function MapAll(rows: seq<PromoRow>): (ps: seq<UiPromo>)
    ensures |ps| == |rows|
    ensures forall k :: 0 <= k < |rows| ==> ps[k] == MapPromo(rows[k])
  {
    seq(|rows|, k requires 0 <= k < |rows| => MapPromo(rows[k]))
  }

  /** `{ ...p, ...updates }`. */
  function Merge(p: UiPromo, u: UiPromoPatch): UiPromo {
    UiPromo(
      u.id.GetOr(p.id), u.code.GetOr(p.code), u.discount_type.GetOr(p.discount_type),
      u.discount_value.GetOr(p.discount_value), u.min_order_amount.GetOr(p.min_order_amount),
      u.max_uses.GetOr(p.max_uses), u.current_uses.GetOr(p.current_uses),
      u.is_active.GetOr(p.is_active), u.expires_at.GetOr(p.expires_at), u.created_at.GetOr(p.created_at))
  }

  /** `prev.map(p => p.id === id ? { ...p, ...updates } : p)`. */
  function UpdateById(ps: seq<UiPromo>, id: int, u: UiPromoPatch): (r: seq<UiPromo>)
    ensures |r| == |ps|
    ensures forall k :: 0 <= k < |ps| && ps[k].id != id ==> r[k] == ps[k]
    ensures forall k :: 0 <= k < |ps| && ps[k].id == id ==> r[k] == Merge(ps[k], u)
  {
    seq(|ps|, k requires 0 <= k < |ps| => if ps[k].id == id then Merge(ps[k], u) else ps[k])
  }

  /** `prev.filter(p => p.id !== id)`. */
  function DeleteById(ps: seq<UiPromo>, id: int): (r: seq<UiPromo>)
    ensures forall k :: 0 <= k < |r| ==> r[k].id != id
  {
    Seqs.Filter(ps, (p: UiPromo) => p.id != id)
  }

  /** Deleting keeps every other record, in order, and keeps each as often as before. */
  lemma DeleteKeepsOthers(ps: seq<UiPromo>, id: int, p: UiPromo)
    ensures Seqs.IsSubseq(DeleteById(ps, id), ps)
    ensures multiset(DeleteById(ps, id))[p] == if p.id == id then 0 else multiset(ps)[p]
  {
    Seqs.FilterIsSubseq(ps, (q: UiPromo) => q.id != id);
    Seqs.FilterMultiplicity(ps, (q: UiPromo) => q.id != id, p);
  }

  /** Merging an empty patch changes nothing, so updating with no fields is the identity. */
  lemma EmptyUpdateIsIdentity(ps: seq<UiPromo>, id: int)
    ensures UpdateById(ps, id, EmptyPatch) == ps
  {
  }

  /** A freshly added record is removed again by deleting its id: the list is as before. */
  lemma {:induction false} AddThenDelete(ps: seq<UiPromo>, row: PromoRow)
    requires forall k :: 0 <= k < |ps| ==> ps[k].id != row.id
    ensures DeleteById([MapPromo(row)] + ps, row.id) == ps
  {
    var keep := (p: UiPromo) => p.id != row.id;
    Seqs.FilterAppend([MapPromo(row)], ps, keep);
    Seqs.FilterKeepsAll(ps, keep);
  }

  /** The admin list of promo codes. */
  class PromoCodeContext {
    var promoCodes: seq<UiPromo>

    /** `useState(initialPromoCodes.map(mapPromo))`, the initial list defaulting to empty. */
    constructor (initialPromoCodes: seq<PromoRow>)
      ensures promoCodes == MapAll(initialPromoCodes)
    {
      promoCodes := MapAll(initialPromoCodes);
    }

    /** `setPromoCodes`: replace the list by the mapped backend rows, in their order. */
    method SetPromoCodes(codes: seq<PromoRow>)
      modifies this
      ensures promoCodes == MapAll(codes)
    {
      promoCodes := MapAll(codes);
    }

    /** `addPromoCode`: the mapped record goes first. */
    method AddPromoCode(row: PromoRow)
      modifies this
      ensures promoCodes == [MapPromo(row)] + old(promoCodes)
      ensures |promoCodes| == |old(promoCodes)| + 1 && promoCodes[1..] == old(promoCodes)
    {
      promoCodes := [MapPromo(row)] + promoCodes;
    }

    /** `updatePromoCode`: merge the updates into every record with that id. */
    method UpdatePromoCode(id: int, updates: UiPromoPatch)
      modifies this
      ensures promoCodes == UpdateById(old(promoCodes), id, updates)
    {
      promoCodes := UpdateById(promoCodes, id, updates);
    }

    /** `deletePromoCode`: drop every record with that id. */
    method DeletePromoCode(id: int)
      modifies this
      ensures promoCodes == DeleteById(old(promoCodes), id)
    {
      promoCodes := DeleteById(promoCodes, id);
    }
  }
}
