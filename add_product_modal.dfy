/**
 * The comma-separated sizes and colours field of the add-product form
 * (`components/admin/add-product-modal.tsx`): `split(",")`, then `trim` each
 * piece, then `filter(Boolean)` to drop the empty ones.
 */
module AddProductModal {
  import opened Text
  import Seqs

  /** `pieces.map((s) => s.trim())`. */
  function TrimAll(pieces: seq<string>): (r: seq<string>)
    ensures |r| == |pieces|
    ensures forall k :: 0 <= k < |pieces| ==> r[k] == Trim(pieces[k])
  {
    seq(|pieces|, k requires 0 <= k < |pieces| => Trim(pieces[k]))
  }

  /** `Boolean` on a string: non-empty. */
  predicate NonEmpty(s: string) {
    s != []
  }

  /** The whole chain. */
  function ParseList(s: string): (r: seq<string>)
    ensures forall k :: 0 <= k < |r| ==> r[k] != ""
  {
    Seqs.Filter(TrimAll(Split(s, ',')), NonEmpty)
  }

  /** Every element is already trimmed and holds no comma. */
  lemma ElementsTrimmed(s: string)
    ensures forall k :: 0 <= k < |ParseList(s)| ==> Trim(ParseList(s)[k]) == ParseList(s)[k] && ',' !in ParseList(s)[k]
  {
    var pieces := Split(s, ',');
    var trimmed := TrimAll(pieces);
    var r := ParseList(s);
    forall k | 0 <= k < |r| ensures Trim(r[k]) == r[k] && ',' !in r[k] {
      Seqs.FilterMembership(trimmed, NonEmpty, r[k]);
      var j :| 0 <= j < |trimmed| && trimmed[j] == r[k];
      TrimmedPiece(pieces[j]);
    }
  }

  /** One trimmed piece of the split: its own trim, and still free of commas. */
  lemma TrimmedPiece(p: string)
    requires ',' !in p
    ensures Trim(Trim(p)) == Trim(p) && ',' !in Trim(p)
  {
    TrimIdempotent(p);
    TrimIsSlice(p);
  }

  lemma {:induction false} TrimAllAppend(a: seq<string>, b: seq<string>)
    ensures TrimAll(a + b) == TrimAll(a) + TrimAll(b)
  {
  }

  /** Order follows the commas: a list written around a comma parses as the left part's items, then the right part's. */
  lemma ParseAroundComma(a: string, b: string)
    ensures ParseList(a + "," + b) == ParseList(a) + ParseList(b)
  {
    SplitAround(a, b, ',');
    TrimAllAppend(Split(a, ','), Split(b, ','));
    Seqs.FilterAppend(TrimAll(Split(a, ',')), TrimAll(Split(b, ',')), NonEmpty);
  }

  /** An empty or all-blank input gives no items. */
  lemma BlankGivesNothing(s: string)
    requires IsBlankText(s)
    ensures ParseList(s) == []
  {
    TrimEmptyIffBlank(s);
    assert ',' !in s by {
      forall k | 0 <= k < |s| ensures s[k] != ',' {
        assert IsSpace(s[k]);
      }
    }
    SplitNoSep(s, ',');
    var t := TrimAll([s]);
    assert t == [""];
    assert Seqs.Filter(t, NonEmpty) == Seqs.Filter(t[1..], NonEmpty);
  }

  /** A non-blank input with no comma gives the single trimmed item. */
  lemma NoCommaGivesOne(s: string)
    requires ',' !in s && !IsBlankText(s)
    ensures ParseList(s) == [Trim(s)]
  {
    TrimEmptyIffBlank(s);
    SplitNoSep(s, ',');
    assert TrimAll([s]) == [Trim(s)];
  }
}
