/** The vendor's product rows and the normalize-and-filter pass the handler runs over them. */
module Catalog {
  import opened Options

  /** The only sub-category the endpoint serves (`SUBCATEGORY_ID`). */
  const SubcategoryId: int := 78

  /** The locale that the description fields are projected onto. */
  const TargetLocale: string := "lt"

  /** A row of `products_base` as the vendor sends it.
      `subcategoryId` is the value of `+p.subcategory_id`: `Some(n)` when it coerces to the
      integer `n`, `None` when it coerces to `NaN`. The text fields map locale codes to strings,
      or are `None` for `null` / absent. `rest` stands for every other field of the row. */
  datatype RawProduct = RawProduct(
    subcategoryId: Option<int>,
    description: Option<map<string, string>>,
    longDescription: Option<map<string, string>>,
    rest: map<string, string>)

  /** A row after normalization: each text field is its target-locale string, or `null`. */
  datatype Product = Product(
    subcategoryId: Option<int>,
    description: Option<string>,
    longDescription: Option<string>,
    rest: map<string, string>)

  /** `t?.lt ?? null`. */
  function LocaleText(t: Option<map<string, string>>): Option<string> {
    if t.Some? && TargetLocale in t.value then Some(t.value[TargetLocale]) else None
  }

  /** The two in-place overwrites of the loop body, as a new record. */
  function Normalize(r: RawProduct): Product {
    Product(r.subcategoryId, LocaleText(r.description), LocaleText(r.longDescription), r.rest)
  }

  /** `+p.subcategory_id === SUBCATEGORY_ID`; `NaN` never matches. */
  predicate InSubcategory(id: Option<int>) {
    id == Some(SubcategoryId)
  }

  /** Specification of the loop: the normalized rows of the sub-category, in input order. */
  function Selected(rows: seq<RawProduct>): (r: seq<Product>)
    ensures |r| <= |rows|
    ensures forall p :: p in r ==> InSubcategory(p.subcategoryId)
  {
    if rows == [] then []
    else
      var last := rows[|rows| - 1];
      Selected(rows[..|rows| - 1]) + (if InSubcategory(last.subcategoryId) then [Normalize(last)] else [])
  }

  /** The positions of the rows the loop keeps, in increasing order. */
  function KeptIndices(rows: seq<RawProduct>): (r: seq<nat>)
    ensures forall k :: 0 <= k < |r| ==> r[k] < |rows|
    ensures forall k, l :: 0 <= k < l < |r| ==> r[k] < r[l]
    ensures forall i :: 0 <= i < |rows| ==> (i in r <==> InSubcategory(rows[i].subcategoryId))
  {
    if rows == [] then []
    else
      var n := |rows| - 1;
      KeptIndices(rows[..n]) + (if InSubcategory(rows[n].subcategoryId) then [n] else [])
  }

  /** The loop of the handler: counts every row, normalizes it, and keeps it when it is in
      the sub-category. */
  method NormalizeAndFilter(rows: seq<RawProduct>) returns (keep: seq<Product>, total: nat)
    ensures total == |rows| && |keep| <= total
    ensures keep == Selected(rows)
  {
    keep, total := [], 0;
    for i := 0 to |rows|
      invariant total == i
      invariant keep == Selected(rows[..i])
    {
      total := total + 1;
      var p := Normalize(rows[i]);
      if InSubcategory(p.subcategoryId) {
        keep := keep + [p];
      }
      assert rows[..i + 1][..i] == rows[..i];
    }
    assert rows[..|rows|] == rows;
  }

  /** Normalization projects both text fields onto the target locale and alters nothing else. */
  lemma NormalizeProjects(r: RawProduct)
    ensures r.description.None? ==> Normalize(r).description.None?
    ensures r.description.Some? && TargetLocale in r.description.value ==>
              Normalize(r).description == Some(r.description.value[TargetLocale])
    ensures r.description.Some? && TargetLocale !in r.description.value ==> Normalize(r).description.None?
    ensures r.longDescription.None? ==> Normalize(r).longDescription.None?
    ensures r.longDescription.Some? && TargetLocale in r.longDescription.value ==>
              Normalize(r).longDescription == Some(r.longDescription.value[TargetLocale])
    ensures r.longDescription.Some? && TargetLocale !in r.longDescription.value ==> Normalize(r).longDescription.None?
    ensures Normalize(r).subcategoryId == r.subcategoryId && Normalize(r).rest == r.rest
  {
  }

  /** Embeds a normalized row back as a raw row that carries only the target locale. */
  function Localize(p: Product): RawProduct {
    RawProduct(p.subcategoryId, Embed(p.description), Embed(p.longDescription), p.rest)
  }

  function Embed(t: Option<string>): Option<map<string, string>> {
    if t.Some? then Some(map[TargetLocale := t.value]) else None
  }

  /** Normalization loses nothing that a normalized row holds: it undoes `Localize`. */
  lemma NormalizeLocalize(p: Product)
    ensures Normalize(Localize(p)) == p
  {
  }

  /** Only the target-locale entry of a text field matters to normalization. */
  lemma NormalizeIgnoresOtherLocales(r: RawProduct, s: RawProduct)
    requires r.subcategoryId == s.subcategoryId && r.rest == s.rest
    requires LocaleText(r.description) == LocaleText(s.description)
    requires LocaleText(r.longDescription) == LocaleText(s.longDescription)
    ensures Normalize(r) == Normalize(s)
  {
  }

  /** Filtering a concatenation filters each part. */
  lemma {:induction false} SelectedAppend(a: seq<RawProduct>, b: seq<RawProduct>)
    ensures Selected(a + b) == Selected(a) + Selected(b)
    decreases |b|
  {
    if b == [] {
      assert a + b == a;
    } else {
      var n := |b| - 1;
      SelectedAppend(a, b[..n]);
      assert (a + b)[..|a + b| - 1] == a + b[..n];
    }
  }

  /** The kept list is exactly the normalized rows at `KeptIndices(rows)`: an ordered
      subsequence of the input holding every row of the sub-category and no other. */
  lemma {:induction false} SelectedIsOrderedSubsequence(rows: seq<RawProduct>)
    ensures |Selected(rows)| == |KeptIndices(rows)|
    ensures forall k :: 0 <= k < |KeptIndices(rows)| ==>
              Selected(rows)[k] == Normalize(rows[KeptIndices(rows)[k]])
  {
    if rows != [] {
      var n := |rows| - 1;
      var prefix := rows[..n];
      SelectedIsOrderedSubsequence(prefix);
      var s, ks := Selected(rows), KeptIndices(rows);
      var s0, ks0 := Selected(prefix), KeptIndices(prefix);
      assert |s| == |ks|;
      forall k | 0 <= k < |ks|
        ensures s[k] == Normalize(rows[ks[k]])
      {
        if k < |ks0| {
          assert ks[k] == ks0[k] && s[k] == s0[k];
          assert prefix[ks0[k]] == rows[ks0[k]];
        } else {
          assert ks[k] == n && s[k] == Normalize(rows[n]);
        }
      }
    }
  }

  /** A normalized row is kept if and only if it comes from a row of the sub-category. */
  lemma SelectedMembers(rows: seq<RawProduct>, p: Product)
    ensures p in Selected(rows) <==>
            exists i :: 0 <= i < |rows| && InSubcategory(rows[i].subcategoryId) && Normalize(rows[i]) == p
  {
    SelectedIsOrderedSubsequence(rows);
    var s, ks := Selected(rows), KeptIndices(rows);
    if p in s {
      var k :| 0 <= k < |s| && s[k] == p;
      assert ks[k] in ks;
    }
    if exists i :: 0 <= i < |rows| && InSubcategory(rows[i].subcategoryId) && Normalize(rows[i]) == p {
      var i :| 0 <= i < |rows| && InSubcategory(rows[i].subcategoryId) && Normalize(rows[i]) == p;
      assert i in ks;
      var k :| 0 <= k < |ks| && ks[k] == i;
      assert s[k] == p;
    }
  }
}
