/**
 * The older variant batterway/datamodel/Generic/Product.py. Its `Quantity` arithmetic is
 * the one of module Algebra; what differs is `Quantity.__eq__` (no numeric branch), a
 * `BoM` from products to Quantities whose total is the `sum()` of those Quantities, a
 * product check that compares the total with the reference as Quantities, a unit-checked
 * `BoM * Quantity`, a flattening that gives `None` for a raw material, and `Flow`.
 */
module LegacyProducts {
  import opened Outcomes
  import opened Algebra
  import opened Dicts

  /** `Quantity.__eq__` of the older variant: only a Quantity with the same value and the
      same unit object is equal; a bare number never is. */
  function LegacyQuantityEq(self: Quantity, other: Operand): (r: bool)
    ensures r <==> other == Qty(self)
    ensures other.Num? ==> !r
  {
    match other
    case Qty(q) => self.value == q.value && self.unit == q.unit
    case _ => false
  }

  // ---------------------------------------------------------------------------
  // BoM over Quantities
  // ---------------------------------------------------------------------------

  /** A `BoM`: its `product_quantities` dict in order and the `quantity_total` it computed
      when it was built (the int 0, shown as `Num(0.0)`, or a Quantity). */
  datatype LegacyBom = LegacyBom(entries: seq<(ProductRef, Quantity)>, total: Operand)

  function Values(es: seq<(ProductRef, Quantity)>): (qs: seq<Quantity>)
    ensures |qs| == |es| && forall i :: 0 <= i < |es| ==> qs[i] == es[i].1
  {
    seq(|es|, i requires 0 <= i < |es| => es[i].1)
  }

  /** Every value is in unit `u`. */
  predicate InUnit(es: seq<(ProductRef, Quantity)>, u: UnitRef)
  {
    SameUnit(Values(es), u)
  }

  /** `BoM.__init__`: `sum()` of the values, which raises ValueError as soon as two of
      them, under any keys, have different unit objects. */
  function MakeLegacyBom(es: seq<(ProductRef, Quantity)>): (r: Outcome<LegacyBom>)
    ensures r.Raises? <==> |es| > 0 && !InUnit(es, es[0].1.unit)
    ensures r.Raises? ==> r.error == ValueError
    ensures r.Returns? ==> r.value.entries == es
    ensures r.Returns? && |es| == 0 ==> r.value.total == Num(0.0)
    ensures r.Returns? && |es| > 0 ==> r.value.total == Qty(Quantity(ValueSum(Values(es)), es[0].1.unit))
  {
    SumOfQuantities(Values(es));
    match PySum(Values(es))
    case Raises(e) => Raises(e)
    case Returns(t) => Returns(LegacyBom(es, t))
  }

  /** The product a LegacyBom value was built by `MakeLegacyBom`. */
  predicate WellFormed(b: LegacyBom)
  {
    MakeLegacyBom(b.entries) == Returns(b)
  }

  function QValue(q: Quantity): real
  {
    q.value
  }

  function AddQuantities(v: Quantity, w: Quantity): Outcome<Quantity>
  {
    CombineQuantities(Plus, v, w)
  }

  /** `BoM.__add__`: Counter addition of the Quantities (unit-checked on shared keys, `> 0`
      on the value), then the constructor's `sum()` over the result. */
  function LegacyAdd(a: LegacyBom, b: LegacyBom): Outcome<LegacyBom>
  {
    match CounterAdd(a.entries, b.entries, AddQuantities, QValue)
    case Raises(e) => Raises(e)
    case Returns(es) => MakeLegacyBom(es)
  }

  function LegacyAmount(es: seq<(ProductRef, Quantity)>, k: ProductRef): real
  {
    match Get(es, k)
    case None => 0.0
    case Some(q) => q.value
  }

  /** A key whose Quantities on the two sides have different unit objects. */
  predicate UnitClashAt(a: LegacyBom, b: LegacyBom, j: ProductRef)
  {
    Get(a.entries, j).Some? && Get(b.entries, j).Some? && Get(a.entries, j).value.unit != Get(b.entries, j).value.unit
  }

  /** Counter addition of the two dicts succeeds, but the values it keeps are not all in
      one unit object, so the constructor's `sum()` over them raises. */
  predicate MixedUnitsKept(a: LegacyBom, b: LegacyBom)
  {
    var c := CounterAdd(a.entries, b.entries, AddQuantities, QValue);
    c.Returns? && |c.value| > 0 && !InUnit(c.value, c.value[0].1.unit)
  }

  /** Addition raises, always ValueError, exactly on a shared key with two unit objects
      or when the kept values are in several units; between BoMs in a single unit it
      succeeds, sums the shared keys, keeps the one-sided ones and drops every key whose
      value is not positive, and stays in that unit. */
  lemma LegacyAddSpec(a: LegacyBom, b: LegacyBom)
    requires UniqueKeys(a.entries) && UniqueKeys(b.entries)
    ensures LegacyAdd(a, b).Raises? <==> (exists j :: UnitClashAt(a, b, j)) || MixedUnitsKept(a, b)
    ensures LegacyAdd(a, b).Raises? ==> LegacyAdd(a, b).error == ValueError
    ensures forall u :: InUnit(a.entries, u) && InUnit(b.entries, u) ==>
              LegacyAdd(a, b).Returns?
              && var r := LegacyAdd(a, b).value;
                 UniqueKeys(r.entries) && InUnit(r.entries, u) && WellFormed(r)
                 && (forall j :: j in Keys(r.entries) <==>
                       j in Keys(a.entries) + Keys(b.entries) && LegacyAmount(a.entries, j) + LegacyAmount(b.entries, j) > 0.0)
                 && (forall j :: LegacyAmount(r.entries, j) == Positive(LegacyAmount(a.entries, j) + LegacyAmount(b.entries, j)))
  {
    CounterAddSpec(a.entries, b.entries, AddQuantities, QValue);
    forall j ensures SharedKeyFails(a.entries, b.entries, AddQuantities, j) <==> UnitClashAt(a, b, j) {
    }
    var c := CounterAdd(a.entries, b.entries, AddQuantities, QValue);
    if c.Raises? {
      var j :| SharedKeyFails(a.entries, b.entries, AddQuantities, j)
               && c.error == AddQuantities(Get(a.entries, j).value, Get(b.entries, j).value).error;
      assert c.error == ValueError;
    }
    forall u | InUnit(a.entries, u) && InUnit(b.entries, u)
      ensures LegacyAdd(a, b).Returns?
      ensures var r := LegacyAdd(a, b).value;
              UniqueKeys(r.entries) && InUnit(r.entries, u) && WellFormed(r)
              && (forall j :: j in Keys(r.entries) <==>
                    j in Keys(a.entries) + Keys(b.entries) && LegacyAmount(a.entries, j) + LegacyAmount(b.entries, j) > 0.0)
              && (forall j :: LegacyAmount(r.entries, j) == Positive(LegacyAmount(a.entries, j) + LegacyAmount(b.entries, j)))
    {
      LegacyAddInUnit(a, b, u);
    }
  }

  /** Addition of two BoMs in unit `u`. */
  lemma LegacyAddInUnit(a: LegacyBom, b: LegacyBom, u: UnitRef)
    requires UniqueKeys(a.entries) && UniqueKeys(b.entries)
    requires InUnit(a.entries, u) && InUnit(b.entries, u)
    ensures LegacyAdd(a, b).Returns?
    ensures var r := LegacyAdd(a, b).value;
            UniqueKeys(r.entries) && InUnit(r.entries, u) && WellFormed(r)
            && (forall j :: j in Keys(r.entries) <==>
                  j in Keys(a.entries) + Keys(b.entries) && LegacyAmount(a.entries, j) + LegacyAmount(b.entries, j) > 0.0)
            && (forall j :: LegacyAmount(r.entries, j) == Positive(LegacyAmount(a.entries, j) + LegacyAmount(b.entries, j)))
  {
    CounterAddSpec(a.entries, b.entries, AddQuantities, QValue);
    forall j ensures !SharedKeyFails(a.entries, b.entries, AddQuantities, j) {
      if Get(a.entries, j).Some? && Get(b.entries, j).Some? {
        KeyInUnit(a.entries, j, u);
        KeyInUnit(b.entries, j, u);
      }
    }
    var es := CounterAdd(a.entries, b.entries, AddQuantities, QValue).value;
    SumInUnit(a.entries, b.entries, es, u);
    forall j ensures j in Keys(es) <==>
                  j in Keys(a.entries) + Keys(b.entries) && LegacyAmount(a.entries, j) + LegacyAmount(b.entries, j) > 0.0
    {
      assert !SharedKeyFails(a.entries, b.entries, AddQuantities, j);
      assert Get(es, j) == Expected(a.entries, b.entries, AddQuantities, QValue, j);
    }
    forall j ensures LegacyAmount(es, j) == Positive(LegacyAmount(a.entries, j) + LegacyAmount(b.entries, j)) {
      assert Get(es, j) == Expected(a.entries, b.entries, AddQuantities, QValue, j);
    }
  }

  /** A dict holding, under each key, what Counter addition of two dicts in unit `u` puts
      there is itself in `u`. */
  lemma SumInUnit(a: seq<(ProductRef, Quantity)>, b: seq<(ProductRef, Quantity)>, es: seq<(ProductRef, Quantity)>, u: UnitRef)
    requires UniqueKeys(a) && UniqueKeys(b) && UniqueKeys(es)
    requires InUnit(a, u) && InUnit(b, u)
    requires forall j :: Get(es, j) == Expected(a, b, AddQuantities, QValue, j)
    ensures InUnit(es, u)
  {
    forall i | 0 <= i < |es| ensures es[i].1.unit == u {
      GetAt(es, i);
      var j := es[i].0;
      assert Get(es, j) == Expected(a, b, AddQuantities, QValue, j);
      if Get(a, j).Some? { KeyInUnit(a, j, u); }
      if Get(b, j).Some? { KeyInUnit(b, j, u); }
    }
  }

  /** In a BoM in unit `u`, the value under any present key is in `u`. */
  lemma {:induction false} KeyInUnit(es: seq<(ProductRef, Quantity)>, j: ProductRef, u: UnitRef)
    requires InUnit(es, u) && j in Keys(es)
    ensures Get(es, j).value.unit == u
  {
    if es[0].0 != j {
      assert Values(es[1..]) == Values(es)[1..];
      KeyInUnit(es[1..], j, u);
    } else {
      assert Values(es)[0] == es[0].1;
    }
  }

  /** A value scaled by `m`, in its own unit object. */
  function ScaledBy(q: Quantity, m: real): Quantity
  {
    Quantity(q.value * m, q.unit)
  }

  /** `q * other` for a value `q` where it cannot raise. */
  function TimesValue(q: Quantity, other: Operand): (r: Quantity)
    requires (other.Num? || other.Qty?) && !UnitClash(q, other)
    ensures r == ScaledBy(q, Magnitude(other))
  {
    assert Apply(Times, q.value, Magnitude(other)) == q.value * Magnitude(other);
    QuantityOp(Times, q, other).value.value
  }

  /** `BoM.__mul__`: a number scales every value; a Quantity does too, but `q * other`
      raises ValueError at the first value with another unit object; anything else is a
      TypeError. The result is built by the constructor, so it raises when the BoM was in
      several units. */
  function LegacyScale(b: LegacyBom, other: Operand): (r: Outcome<LegacyBom>)
    ensures r.Raises? <==>
              !(other.Num? || other.Qty?)
              || (other.Qty? && !InUnit(b.entries, other.q.unit))
              || (|b.entries| > 0 && !InUnit(b.entries, b.entries[0].1.unit))
    ensures !(other.Num? || other.Qty?) ==> r == Raises(TypeError)
    ensures (other.Num? || other.Qty?) && r.Raises? ==> r.error == ValueError
    ensures r.Returns? ==>
              WellFormed(r.value) && |r.value.entries| == |b.entries|
              && forall i :: 0 <= i < |b.entries| ==>
                   r.value.entries[i] == (b.entries[i].0, ScaledBy(b.entries[i].1, Magnitude(other)))
  {
    if !(other.Num? || other.Qty?) then Raises(TypeError)
    else if other.Qty? && !InUnit(b.entries, other.q.unit) then Raises(ValueError)
    else
      assert forall i :: 0 <= i < |b.entries| ==> !UnitClash(b.entries[i].1, other) by {
        if other.Qty? {
          assert forall i :: 0 <= i < |b.entries| ==> Values(b.entries)[i] == b.entries[i].1;
        }
      }
      var scaled := ScaleValues(b.entries, other);
      assert |scaled| > 0 ==> (InUnit(scaled, scaled[0].1.unit) <==> InUnit(b.entries, b.entries[0].1.unit)) by {
        if |scaled| > 0 {
          assert forall i :: 0 <= i < |scaled| ==> Values(scaled)[i].unit == Values(b.entries)[i].unit;
        }
      }
      MakeLegacyBom(scaled)
  }

  /** `{p: q * other for p, q in ...}` where no value can raise. */
  function ScaleValues(es: seq<(ProductRef, Quantity)>, other: Operand): (r: seq<(ProductRef, Quantity)>)
    requires other.Num? || other.Qty?
    requires forall i :: 0 <= i < |es| ==> !UnitClash(es[i].1, other)
    ensures |r| == |es|
    ensures forall i :: 0 <= i < |es| ==> r[i] == (es[i].0, ScaledBy(es[i].1, Magnitude(other)))
  {
    if |es| == 0 then [] else [(es[0].0, TimesValue(es[0].1, other))] + ScaleValues(es[1..], other)
  }

  // ---------------------------------------------------------------------------
  // Product
  // ---------------------------------------------------------------------------

  datatype LegacyProduct = LegacyProduct(name: string, reference: Quantity, bom: Option<LegacyBom>)

  /** `Product.__init__`: `quantity_total != reference_quantity` with the older `__eq__`.
      A Quantity total must match the reference in value and unit object; the int 0 of an
      empty BoM never matches (Python falls back to `reference.__ne__(0)`). */
  function MakeLegacyProduct(name: string, reference: Quantity, bom: Option<LegacyBom>): (r: Outcome<LegacyProduct>)
    ensures r.Raises? <==> bom.Some? && bom.value.total != Qty(reference)
    ensures r.Raises? ==> r.error == ValueError
    ensures r.Returns? ==> r.value == LegacyProduct(name, reference, bom)
  {
    if bom.Some? && !LegacyQuantityEq(reference, bom.value.total) then Raises(ValueError)
    else Returns(LegacyProduct(name, reference, bom))
  }

  /** For a BoM built by its constructor: the product is accepted exactly when the BoM is
      not empty, all of its values are in the reference's unit object and their values add
      up to the reference value. An empty BoM is always rejected. */
  lemma LegacyProductCheck(name: string, reference: Quantity, b: LegacyBom)
    requires WellFormed(b)
    ensures MakeLegacyProduct(name, reference, Some(b)).Returns? <==>
              |b.entries| > 0 && InUnit(b.entries, reference.unit) && ValueSum(Values(b.entries)) == reference.value
    ensures |b.entries| == 0 ==> MakeLegacyProduct(name, reference, Some(b)).Raises?
  {
    if |b.entries| > 0 && InUnit(b.entries, b.entries[0].1.unit) {
      var qs := Values(b.entries);
      assert qs[0] == b.entries[0].1;
      assert InUnit(b.entries, reference.unit) <==> b.entries[0].1.unit == reference.unit;
    }
  }

  // ---------------------------------------------------------------------------
  // Flattening
  // ---------------------------------------------------------------------------

  type LegacyCatalog = map<ProductRef, LegacyProduct>

  /** Every BoM of the catalog was built by its constructor, holds no key twice and has
      only known keys. */
  predicate LegacyValid(cat: LegacyCatalog)
  {
    forall p :: p in cat && cat[p].bom.Some? ==>
      WellFormed(cat[p].bom.value) && UniqueKeys(cat[p].bom.value.entries) && LegacyKnown(cat, cat[p].bom.value.entries)
  }

  predicate LegacyKnown(cat: LegacyCatalog, es: seq<(ProductRef, Quantity)>)
  {
    forall i :: 0 <= i < |es| ==> es[i].0 in cat
  }

  /** No product occurs, directly or not, in its own BoM. */
  ghost predicate LegacyRanked(cat: LegacyCatalog, rank: map<ProductRef, nat>)
  {
    forall p :: p in cat ==>
      p in rank && (cat[p].bom.Some? ==> LegacyBelow(cat[p].bom.value.entries, rank, rank[p]))
  }

  ghost predicate LegacyBelow(es: seq<(ProductRef, Quantity)>, rank: map<ProductRef, nat>, bound: nat)
  {
    forall i :: 0 <= i < |es| ==> es[i].0 in rank && rank[es[i].0] < bound
  }

  /** `Product.get_final_bom` of the older variant: `None` for a raw material. */
  function LegacyFinalBom(cat: LegacyCatalog, p: ProductRef, ghost rank: map<ProductRef, nat>): (r: Outcome<Option<LegacyBom>>)
    requires LegacyValid(cat) && LegacyRanked(cat, rank) && p in cat
    ensures cat[p].bom.None? <==> r == Returns(None)
  {
    match cat[p].bom
    case None => Returns(None)
    case Some(b) =>
      match LegacyFold(cat, b.entries, rank, rank[p])
      case Raises(e) => Raises(e)
      case Returns(f) => Returns(Some(f))
  }

  /** The accumulator after the loop has visited the entries `es`. */
  function LegacyFold(cat: LegacyCatalog, es: seq<(ProductRef, Quantity)>, ghost rank: map<ProductRef, nat>, ghost bound: nat): Outcome<LegacyBom>
    requires LegacyValid(cat) && LegacyRanked(cat, rank) && LegacyKnown(cat, es) && LegacyBelow(es, rank, bound)
    decreases bound, 0, |es|
  {
    if |es| == 0 then Returns(LegacyBom([], Num(0.0)))
    else
      match LegacyFold(cat, es[..|es| - 1], rank, bound)
      case Raises(e) => Raises(e)
      case Returns(acc) =>
        match LegacyContribution(cat, es[|es| - 1].0, es[|es| - 1].1, rank, bound)
        case Raises(e) => Raises(e)
        case Returns(part) => LegacyAdd(acc, part)
  }

  /** A raw material is added as `BoM({product: qty})`, a composite product as its own
      flattened BoM times `qty`. */
  function LegacyContribution(cat: LegacyCatalog, child: ProductRef, qty: Quantity, ghost rank: map<ProductRef, nat>, ghost bound: nat): Outcome<LegacyBom>
    requires LegacyValid(cat) && LegacyRanked(cat, rank) && child in cat && child in rank && rank[child] < bound
    decreases bound, 0, 0
  {
    match cat[child].bom
    case None => MakeLegacyBom([(child, qty)])
    case Some(b) =>
      match LegacyFold(cat, b.entries, rank, rank[child])
      case Raises(e) => Raises(e)
      case Returns(sub) => LegacyScale(sub, Qty(qty))
  }

  lemma {:induction false} LegacyFoldRaisesOnward(cat: LegacyCatalog, es: seq<(ProductRef, Quantity)>, k: nat,
                                                  rank: map<ProductRef, nat>, bound: nat)
    requires LegacyValid(cat) && LegacyRanked(cat, rank) && LegacyKnown(cat, es) && LegacyBelow(es, rank, bound)
    requires k <= |es| && LegacyFold(cat, es[..k], rank, bound).Raises?
    ensures LegacyFold(cat, es, rank, bound) == LegacyFold(cat, es[..k], rank, bound)
    decreases |es|
  {
    if k < |es| {
      var init := es[..|es| - 1];
      assert init[..k] == es[..k];
      LegacyFoldRaisesOnward(cat, init, k, rank, bound);
    } else {
      assert es[..k] == es;
    }
  }

  /** A composite entry contributes its product's flattened BoM times its quantity. */
  lemma LegacyCompositePart(cat: LegacyCatalog, child: ProductRef, qty: Quantity, rank: map<ProductRef, nat>, bound: nat)
    requires LegacyValid(cat) && LegacyRanked(cat, rank) && child in cat && child in rank && rank[child] < bound
    requires cat[child].bom.Some?
    ensures LegacyFinalBom(cat, child, rank).Raises? ==>
              LegacyContribution(cat, child, qty, rank, bound) == Raises(LegacyFinalBom(cat, child, rank).error)
    ensures LegacyFinalBom(cat, child, rank).Returns? ==>
              LegacyFinalBom(cat, child, rank).value.Some?
              && LegacyContribution(cat, child, qty, rank, bound) == LegacyScale(LegacyFinalBom(cat, child, rank).value.value, Qty(qty))
  {
  }

  /** One more step of the loop: the entry at `i` is folded into the accumulator. */
  lemma LegacyFoldStep(cat: LegacyCatalog, es: seq<(ProductRef, Quantity)>, i: nat, rank: map<ProductRef, nat>, bound: nat,
                       acc: LegacyBom, part: Outcome<LegacyBom>)
    requires LegacyValid(cat) && LegacyRanked(cat, rank) && LegacyKnown(cat, es) && LegacyBelow(es, rank, bound)
    requires i < |es| && LegacyFold(cat, es[..i], rank, bound) == Returns(acc)
    requires part == LegacyContribution(cat, es[i].0, es[i].1, rank, bound)
    ensures part.Raises? ==> LegacyFold(cat, es[..i + 1], rank, bound) == Raises(part.error)
    ensures part.Returns? ==> LegacyFold(cat, es[..i + 1], rank, bound) == LegacyAdd(acc, part.value)
  {
    assert es[..i + 1][..i] == es[..i];
  }

  /** `Product.get_final_bom` of the older variant, with its loop and recursive calls. */
  method GetLegacyFinalBom(cat: LegacyCatalog, p: ProductRef, ghost rank: map<ProductRef, nat>) returns (r: Outcome<Option<LegacyBom>>)
    requires LegacyValid(cat) && LegacyRanked(cat, rank) && p in cat
    ensures r == LegacyFinalBom(cat, p, rank)
    decreases rank[p]
  {
    var product := cat[p];
    if product.bom.None? {
      return Returns(None);
    }
    var es := product.bom.value.entries;
    var finalBom := LegacyBom([], Num(0.0));
    var i := 0;
    while i < |es|
      invariant 0 <= i <= |es|
      invariant LegacyFold(cat, es[..i], rank, rank[p]) == Returns(finalBom)
    {
      var (child, qty) := es[i];
      var part: Outcome<LegacyBom>;
      if cat[child].bom.None? {
        part := MakeLegacyBom([(child, qty)]);
      } else {
        var sub := GetLegacyFinalBom(cat, child, rank);
        LegacyCompositePart(cat, child, qty, rank, rank[p]);
        if sub.Raises? {
          part := Raises(sub.error);
        } else {
          part := LegacyScale(sub.value.value, Qty(qty));
        }
      }
      assert part == LegacyContribution(cat, child, qty, rank, rank[p]);
      LegacyFoldStep(cat, es, i, rank, rank[p], finalBom, part);
      var next := if part.Raises? then Raises(part.error) else LegacyAdd(finalBom, part.value);
      if next.Raises? {
        LegacyFoldRaisesOnward(cat, es, i + 1, rank, rank[p]);
        return Raises(next.error);
      }
      finalBom := next.value;
      i := i + 1;
    }
    assert es[..|es|] == es;
    r := Returns(Some(finalBom));
  }

  /** A catalog whose BoMs are all in the unit object `u`. */
  predicate LegacySingleUnit(cat: LegacyCatalog, u: UnitRef)
  {
    forall p :: p in cat && cat[p].bom.Some? ==> InUnit(cat[p].bom.value.entries, u)
  }

  /** Every key names a raw material of the catalog. */
  predicate LegacyOnlyRaw(cat: LegacyCatalog, es: seq<(ProductRef, Quantity)>)
  {
    forall j :: j in Keys(es) ==> j in cat && cat[j].bom.None?
  }

  /** In a catalog in one unit, flattening a composite product never raises and gives a
      dict of raw materials only, in that unit. */
  lemma {:induction false} LegacyFinalBomSucceeds(cat: LegacyCatalog, p: ProductRef, rank: map<ProductRef, nat>, u: UnitRef)
    requires LegacyValid(cat) && LegacyRanked(cat, rank) && LegacySingleUnit(cat, u) && p in cat
    requires cat[p].bom.Some?
    ensures LegacyFinalBom(cat, p, rank).Returns? && LegacyFinalBom(cat, p, rank).value.Some?
    ensures var b := LegacyFinalBom(cat, p, rank).value.value;
            UniqueKeys(b.entries) && InUnit(b.entries, u) && LegacyOnlyRaw(cat, b.entries)
  {
    LegacyFoldSucceeds(cat, cat[p].bom.value.entries, rank, rank[p], u);
  }

  lemma {:induction false} LegacyFoldSucceeds(cat: LegacyCatalog, es: seq<(ProductRef, Quantity)>, rank: map<ProductRef, nat>, bound: nat, u: UnitRef)
    requires LegacyValid(cat) && LegacyRanked(cat, rank) && LegacySingleUnit(cat, u)
    requires LegacyKnown(cat, es) && LegacyBelow(es, rank, bound) && InUnit(es, u)
    ensures LegacyFold(cat, es, rank, bound).Returns?
    ensures var b := LegacyFold(cat, es, rank, bound).value;
            UniqueKeys(b.entries) && InUnit(b.entries, u) && LegacyOnlyRaw(cat, b.entries)
    decreases bound, 0, |es|
  {
    if |es| > 0 {
      var init := es[..|es| - 1];
      var (child, qty) := es[|es| - 1];
      assert Values(init) == Values(es)[..|es| - 1];
      assert Values(es)[|es| - 1] == qty;
      LegacyFoldSucceeds(cat, init, rank, bound, u);
      var acc := LegacyFold(cat, init, rank, bound).value;
      LegacyContributionSucceeds(cat, child, qty, rank, bound, u);
      var part := LegacyContribution(cat, child, qty, rank, bound).value;
      LegacyAddSpec(acc, part);
      var r := LegacyAdd(acc, part).value;
      forall j | j in Keys(r.entries) ensures j in cat && cat[j].bom.None? {
      }
    }
  }

  lemma {:induction false} LegacyContributionSucceeds(cat: LegacyCatalog, child: ProductRef, qty: Quantity, rank: map<ProductRef, nat>, bound: nat, u: UnitRef)
    requires LegacyValid(cat) && LegacyRanked(cat, rank) && LegacySingleUnit(cat, u)
    requires child in cat && child in rank && rank[child] < bound && qty.unit == u
    ensures LegacyContribution(cat, child, qty, rank, bound).Returns?
    ensures var b := LegacyContribution(cat, child, qty, rank, bound).value;
            UniqueKeys(b.entries) && InUnit(b.entries, u) && LegacyOnlyRaw(cat, b.entries)
    decreases bound, 0, 0
  {
    if cat[child].bom.None? {
      var b := LegacyContribution(cat, child, qty, rank, bound).value;
      assert b.entries == [(child, qty)];
      assert b.entries[1..] == [];
      assert Values(b.entries)[0] == qty;
    } else {
      var es := cat[child].bom.value.entries;
      LegacyFoldSucceeds(cat, es, rank, rank[child], u);
      var sub := LegacyFold(cat, es, rank, rank[child]).value;
      var b := LegacyScale(sub, Qty(qty)).value;
      assert forall i :: 0 <= i < |b.entries| ==> Values(b.entries)[i].unit == Values(sub.entries)[i].unit;
      SameKeys(b.entries, sub.entries);
    }
  }

  /** Two dicts with the same keys position by position have the same key set, and the
      same uniqueness. */
  lemma {:induction false} SameKeys(a: seq<(ProductRef, Quantity)>, b: seq<(ProductRef, Quantity)>)
    requires |a| == |b| && forall i :: 0 <= i < |a| ==> a[i].0 == b[i].0
    ensures Keys(a) == Keys(b) && (UniqueKeys(a) <==> UniqueKeys(b))
  {
    if |a| > 0 {
      SameKeys(a[1..], b[1..]);
    }
  }

  /** Disjoint keys are not compared, but the constructor's `sum()` still rejects a result
      that mixes two unit objects. */
  lemma LegacyAddAcrossUnits(a: LegacyBom, b: LegacyBom, u: UnitRef, v: UnitRef)
    requires Keys(a.entries) !! Keys(b.entries) && u != v
    requires |a.entries| > 0 && InUnit(a.entries, u) && |b.entries| > 0 && InUnit(b.entries, v)
    requires forall i :: 0 <= i < |a.entries| ==> a.entries[i].1.value > 0.0
    requires forall i :: 0 <= i < |b.entries| ==> b.entries[i].1.value > 0.0
    ensures LegacyAdd(a, b) == Raises(ValueError)
  {
    CounterAddDisjoint(a.entries, b.entries, AddQuantities, QValue);
    var es := a.entries + b.entries;
    assert Values(es)[0] == a.entries[0].1 && a.entries[0].1.unit == u by {
      assert Values(a.entries)[0] == a.entries[0].1;
    }
    assert Values(es)[|a.entries|] == b.entries[0].1 && b.entries[0].1.unit == v by {
      assert Values(b.entries)[0] == b.entries[0].1;
    }
  }

  // ---------------------------------------------------------------------------
  // Amounts: what the older flattening means on numbers
  // ---------------------------------------------------------------------------

  predicate PositiveValues(es: seq<(ProductRef, Quantity)>)
  {
    forall i :: 0 <= i < |es| ==> es[i].1.value > 0.0
  }

  /** Every BoM of the catalog has positive values only. */
  predicate LegacyPositive(cat: LegacyCatalog)
  {
    forall p :: p in cat && cat[p].bom.Some? ==> PositiveValues(cat[p].bom.value.entries)
  }

  /** How much of raw material `l` the entries `es` of a BoM hold: the sum, over every path
      from them down to `l`, of the product of the values along it. */
  ghost function LegacyPathsAmount(cat: LegacyCatalog, es: seq<(ProductRef, Quantity)>, l: ProductRef,
                                   rank: map<ProductRef, nat>, bound: nat): real
    requires LegacyValid(cat) && LegacyRanked(cat, rank) && LegacyKnown(cat, es) && LegacyBelow(es, rank, bound)
    decreases bound, 0, |es|
  {
    if |es| == 0 then 0.0
    else LegacyPathsAmount(cat, es[..|es| - 1], l, rank, bound) + LegacyEntryAmount(cat, es[|es| - 1].0, es[|es| - 1].1, l, rank, bound)
  }

  /** How much of `l` the entry `qty` filed under `child` brings. */
  ghost function LegacyEntryAmount(cat: LegacyCatalog, child: ProductRef, qty: Quantity, l: ProductRef,
                                   rank: map<ProductRef, nat>, bound: nat): real
    requires LegacyValid(cat) && LegacyRanked(cat, rank) && child in cat && child in rank && rank[child] < bound
    decreases bound, 0, 0
  {
    match cat[child].bom
    case None => if child == l then qty.value else 0.0
    case Some(b) => MulAmount(LegacyPathsAmount(cat, b.entries, l, rank, rank[child]), qty.value)
  }

  /** `x * m`, named so that the solver does not multiply out quantified facts. */
  function MulAmount(x: real, m: real): real
  {
    x * m
  }

  /** In a catalog in one unit with positive values, flattening a composite product
      records under every raw material the sum over all paths to it (diamonds summed),
      and every recorded value is positive. */
  lemma {:induction false} LegacyFinalBomAmounts(cat: LegacyCatalog, p: ProductRef, rank: map<ProductRef, nat>, u: UnitRef)
    requires LegacyValid(cat) && LegacyRanked(cat, rank) && LegacySingleUnit(cat, u) && LegacyPositive(cat) && p in cat
    requires cat[p].bom.Some?
    ensures LegacyFinalBom(cat, p, rank).Returns? && LegacyFinalBom(cat, p, rank).value.Some?
    ensures var b := LegacyFinalBom(cat, p, rank).value.value;
            PositiveValues(b.entries)
            && forall l :: LegacyAmount(b.entries, l) == LegacyPathsAmount(cat, cat[p].bom.value.entries, l, rank, rank[p])
  {
    LegacyFoldAmounts(cat, cat[p].bom.value.entries, rank, rank[p], u);
  }

  lemma {:induction false} LegacyFoldAmounts(cat: LegacyCatalog, es: seq<(ProductRef, Quantity)>, rank: map<ProductRef, nat>, bound: nat, u: UnitRef)
    requires LegacyValid(cat) && LegacyRanked(cat, rank) && LegacySingleUnit(cat, u) && LegacyPositive(cat)
    requires LegacyKnown(cat, es) && LegacyBelow(es, rank, bound) && InUnit(es, u) && PositiveValues(es)
    ensures LegacyFold(cat, es, rank, bound).Returns?
    ensures var b := LegacyFold(cat, es, rank, bound).value;
            PositiveValues(b.entries) && forall l :: LegacyAmount(b.entries, l) == LegacyPathsAmount(cat, es, l, rank, bound)
    decreases bound, 1, |es|
  {
    LegacyFoldSucceeds(cat, es, rank, bound, u);
    if |es| > 0 {
      var init := es[..|es| - 1];
      var (child, qty) := es[|es| - 1];
      assert Values(init) == Values(es)[..|es| - 1];
      assert Values(es)[|es| - 1] == qty;
      LegacyFoldAmounts(cat, init, rank, bound, u);
      LegacyFoldSucceeds(cat, init, rank, bound, u);
      var acc := LegacyFold(cat, init, rank, bound).value;
      LegacyContributionAmounts(cat, child, qty, rank, bound, u);
      LegacyContributionSucceeds(cat, child, qty, rank, bound, u);
      var part := LegacyContribution(cat, child, qty, rank, bound).value;
      assert LegacyFold(cat, es, rank, bound) == LegacyAdd(acc, part);
      LegacyAddAmounts(acc, part, u);
    }
  }

  /** Adding two BoMs in one unit with positive values adds their amounts and keeps every
      value positive: the Counter drops nothing. */
  lemma LegacyAddAmounts(a: LegacyBom, b: LegacyBom, u: UnitRef)
    requires UniqueKeys(a.entries) && UniqueKeys(b.entries)
    requires InUnit(a.entries, u) && InUnit(b.entries, u)
    requires PositiveValues(a.entries) && PositiveValues(b.entries)
    ensures LegacyAdd(a, b).Returns?
    ensures var r := LegacyAdd(a, b).value;
            PositiveValues(r.entries)
            && forall l :: LegacyAmount(r.entries, l) == LegacyAmount(a.entries, l) + LegacyAmount(b.entries, l)
  {
    LegacyAddInUnit(a, b, u);
    var r := LegacyAdd(a, b).value;
    forall l ensures LegacyAmount(r.entries, l) == LegacyAmount(a.entries, l) + LegacyAmount(b.entries, l) {
      NonNegativeAmount(a.entries, l);
      NonNegativeAmount(b.entries, l);
    }
    forall i | 0 <= i < |r.entries| ensures r.entries[i].1.value > 0.0 {
      GetAt(r.entries, i);
    }
  }

  lemma {:induction false} LegacyContributionAmounts(cat: LegacyCatalog, child: ProductRef, qty: Quantity,
                                                     rank: map<ProductRef, nat>, bound: nat, u: UnitRef)
    requires LegacyValid(cat) && LegacyRanked(cat, rank) && LegacySingleUnit(cat, u) && LegacyPositive(cat)
    requires child in cat && child in rank && rank[child] < bound && qty.unit == u && qty.value > 0.0
    ensures LegacyContribution(cat, child, qty, rank, bound).Returns?
    ensures var b := LegacyContribution(cat, child, qty, rank, bound).value;
            PositiveValues(b.entries)
            && forall l :: LegacyAmount(b.entries, l) == LegacyEntryAmount(cat, child, qty, l, rank, bound)
    decreases bound, 0, 1
  {
    LegacyContributionSucceeds(cat, child, qty, rank, bound, u);
    var b := LegacyContribution(cat, child, qty, rank, bound).value;
    if cat[child].bom.None? {
      assert b.entries == [(child, qty)];
      assert b.entries[1..] == [];
    } else {
      LegacyCompositeAmounts(cat, child, qty, rank, bound, u);
    }
  }

  /** A composite entry brings its flattened BoM, every value times the entry's value. */
  lemma {:induction false} LegacyCompositeAmounts(cat: LegacyCatalog, child: ProductRef, qty: Quantity,
                                                  rank: map<ProductRef, nat>, bound: nat, u: UnitRef)
    requires LegacyValid(cat) && LegacyRanked(cat, rank) && LegacySingleUnit(cat, u) && LegacyPositive(cat)
    requires child in cat && child in rank && rank[child] < bound && qty.unit == u && qty.value > 0.0
    requires cat[child].bom.Some? && LegacyContribution(cat, child, qty, rank, bound).Returns?
    ensures var b := LegacyContribution(cat, child, qty, rank, bound).value;
            PositiveValues(b.entries)
            && forall l :: LegacyAmount(b.entries, l) == LegacyEntryAmount(cat, child, qty, l, rank, bound)
    decreases bound, 0, 0
  {
    var es := cat[child].bom.value.entries;
    LegacyFoldAmounts(cat, es, rank, rank[child], u);
    var sub := LegacyFold(cat, es, rank, rank[child]).value;
    var b := LegacyScale(sub, Qty(qty)).value;
    assert LegacyContribution(cat, child, qty, rank, bound).value == b;
    assert Magnitude(Qty(qty)) == qty.value;
    ScaledAmounts(sub.entries, b.entries, qty.value);
    forall l ensures LegacyAmount(b.entries, l) == LegacyEntryAmount(cat, child, qty, l, rank, bound) {
      assert LegacyEntryAmount(cat, child, qty, l, rank, bound) == MulAmount(LegacyPathsAmount(cat, es, l, rank, rank[child]), qty.value);
    }
  }

  /** Values scaled one by one by `m` give amounts scaled by `m`. */
  lemma {:induction false} ScaledAmounts(es: seq<(ProductRef, Quantity)>, scaled: seq<(ProductRef, Quantity)>, m: real)
    requires |scaled| == |es| && forall i :: 0 <= i < |es| ==> scaled[i] == (es[i].0, ScaledBy(es[i].1, m))
    ensures forall l :: LegacyAmount(scaled, l) == MulAmount(LegacyAmount(es, l), m)
    ensures m > 0.0 && PositiveValues(es) ==> PositiveValues(scaled)
  {
    if |es| > 0 {
      ScaledAmounts(es[1..], scaled[1..], m);
      forall l ensures LegacyAmount(scaled, l) == MulAmount(LegacyAmount(es, l), m) {
        if es[0].0 == l {
          assert scaled[0].1.value == es[0].1.value * m;
        } else {
          assert LegacyAmount(scaled, l) == LegacyAmount(scaled[1..], l);
          assert LegacyAmount(es, l) == LegacyAmount(es[1..], l);
        }
      }
      if m > 0.0 && PositiveValues(es) {
        forall i | 0 <= i < |scaled| ensures scaled[i].1.value > 0.0 {
          assert es[i].1.value > 0.0;
          assert scaled[i].1.value == es[i].1.value * m;
        }
      }
    }
  }

  /** In a dict of positive values every amount is at least 0. */
  lemma {:induction false} NonNegativeAmount(es: seq<(ProductRef, Quantity)>, l: ProductRef)
    requires PositiveValues(es)
    ensures LegacyAmount(es, l) >= 0.0
  {
    if |es| > 0 && es[0].0 != l {
      assert PositiveValues(es[1..]) by {
        forall i | 0 <= i < |es[1..]| ensures es[1..][i].1.value > 0.0 {
          assert es[1..][i] == es[i + 1];
        }
      }
      NonNegativeAmount(es[1..], l);
    }
  }

  // ---------------------------------------------------------------------------
  // Flow
  // ---------------------------------------------------------------------------

  /** A `Flow`: a quantity of a product moving through a process. */
  datatype Flow = Flow(product: ProductRef, quantity: Quantity)

  /** What a Flow is combined with: an int or float, a Flow, or anything else (a Quantity
      included). */
  datatype FlowOperand = Number(x: real) | OfFlow(f: Flow) | NotFlow

  /** `Flow.__add__` and `Flow.__mul__`: another product raises ValueError, an operand that
      is neither a number nor a Flow raises TypeError; otherwise the product is kept and the
      quantities are combined with Quantity arithmetic, which raises ValueError on two
      unit objects. */
  function FlowOp(op: ArithOp, self: Flow, other: FlowOperand): (r: Outcome<Flow>)
    requires op == Plus || op == Times
    ensures other.NotFlow? ==> r == Raises(TypeError)
    ensures other.OfFlow? ==>
              (r.Raises? <==> other.f.product != self.product || other.f.quantity.unit != self.quantity.unit)
    ensures other.Number? ==> r.Returns?
    ensures r.Raises? ==> other.NotFlow? || r.error == ValueError
    ensures r.Returns? ==>
              r.value.product == self.product && r.value.quantity.unit == self.quantity.unit
              && r.value.quantity.value ==
                   Apply(op, self.quantity.value, if other.Number? then other.x else other.f.quantity.value)
  {
    match other
    case NotFlow => Raises(TypeError)
    case OfFlow(f) =>
      if f.product != self.product then Raises(ValueError)
      else
        (match QuantityOp(op, self.quantity, Qty(f.quantity))
         case Raises(e) => Raises(e)
         case Returns(q) => Returns(Flow(self.product, q.value)))
    case Number(x) =>
      Returns(Flow(self.product, QuantityOp(op, self.quantity, Num(x)).value.value))
  }
}
