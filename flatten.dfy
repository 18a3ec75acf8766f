/**
 * `Product.get_final_bom` and `ProductInstance.get_final_bom` of
 * batterway/datamodel/generic/product.py: the BoM of a product flattened down to its raw
 * materials. A raw material flattens to itself at its reference quantity; a composite
 * product folds its entries, in order, into an accumulator that starts empty, adding a
 * raw-material entry as it is and a composite entry as its own flattened BoM scaled by
 * the entry's quantity.
 */
module Flattening {
  import opened Outcomes
  import opened Algebra
  import opened Dicts
  import opened Boms

  /** Every BoM of the catalog is a dict (no key twice) whose keys are known products. */
  predicate ValidCatalog(cat: Catalog)
  {
    forall p :: p in cat && cat[p].bom.Some? ==>
      UniqueKeys(cat[p].bom.value.entries) && ChildrenKnown(cat, cat[p].bom.value.entries)
  }

  predicate ChildrenKnown(cat: Catalog, es: seq<(ProductRef, Instance)>)
  {
    forall i :: 0 <= i < |es| ==> es[i].0 in cat
  }

  /** `rank` witnesses that no product occurs, directly or not, in its own BoM: every
      entry ranks below the product whose BoM holds it. The source does not check this;
      on a cycle `get_final_bom` recurses until Python's stack gives out. */
  ghost predicate Ranked(cat: Catalog, rank: map<ProductRef, nat>)
  {
    forall p :: p in cat ==>
      p in rank && (cat[p].bom.Some? ==> RankedBelow(cat[p].bom.value.entries, rank, rank[p]))
  }

  ghost predicate RankedBelow(es: seq<(ProductRef, Instance)>, rank: map<ProductRef, nat>, bound: nat)
  {
    forall i :: 0 <= i < |es| ==> es[i].0 in rank && rank[es[i].0] < bound
  }

  /** Flattened BoM of product `p`. */
  function FinalBom(cat: Catalog, p: ProductRef, ghost rank: map<ProductRef, nat>): Outcome<Bom>
    requires ValidCatalog(cat) && Ranked(cat, rank) && p in cat
    decreases rank[p], 1, 0
  {
    match cat[p].bom
    case None => Returns(Bom([(p, Instance(p, cat[p].reference))]))
    case Some(b) => FoldChildren(cat, b.entries, rank, rank[p])
  }

  /** The accumulator after the loop has visited the entries `es`. */
  function FoldChildren(cat: Catalog, es: seq<(ProductRef, Instance)>, ghost rank: map<ProductRef, nat>, ghost bound: nat): Outcome<Bom>
    requires ValidCatalog(cat) && Ranked(cat, rank) && ChildrenKnown(cat, es) && RankedBelow(es, rank, bound)
    decreases bound, 0, |es|
  {
    if |es| == 0 then Returns(Bom([]))
    else
      match FoldChildren(cat, es[..|es| - 1], rank, bound)
      case Raises(e) => Raises(e)
      case Returns(acc) =>
        match Contribution(cat, es[|es| - 1].0, es[|es| - 1].1, rank, bound)
        case Raises(e) => Raises(e)
        case Returns(part) => AddBoms(acc, part)
  }

  /** What one entry adds to the accumulator. */
  function Contribution(cat: Catalog, child: ProductRef, inst: Instance, ghost rank: map<ProductRef, nat>, ghost bound: nat): Outcome<Bom>
    requires ValidCatalog(cat) && Ranked(cat, rank) && child in cat && child in rank && rank[child] < bound
    decreases bound, 0, 0
  {
    if cat[child].bom.None? then Returns(Bom([(child, inst)]))
    else
      match FinalBom(cat, child, rank)
      case Raises(e) => Raises(e)
      case Returns(sub) => ScaleBom(sub, Qty(inst.qty))
  }

  /** One more entry: the loop adds its contribution to the accumulator so far. */
  lemma FoldSnoc(cat: Catalog, es: seq<(ProductRef, Instance)>, child: ProductRef, inst: Instance,
                 rank: map<ProductRef, nat>, bound: nat, acc: Bom)
    requires ValidCatalog(cat) && Ranked(cat, rank) && ChildrenKnown(cat, es) && RankedBelow(es, rank, bound)
    requires child in cat && child in rank && rank[child] < bound
    requires FoldChildren(cat, es, rank, bound) == Returns(acc)
    ensures ChildrenKnown(cat, es + [(child, inst)]) && RankedBelow(es + [(child, inst)], rank, bound)
    ensures FoldChildren(cat, es + [(child, inst)], rank, bound) ==
              match Contribution(cat, child, inst, rank, bound)
              case Raises(e) => Raises(e)
              case Returns(part) => AddBoms(acc, part)
  {
    assert (es + [(child, inst)])[..|es|] == es;
  }

  /** A raw material not yet in a positive accumulator is appended to it. */
  lemma FoldNewRawMaterial(cat: Catalog, es: seq<(ProductRef, Instance)>, child: ProductRef, inst: Instance,
                           rank: map<ProductRef, nat>, bound: nat, acc: Bom)
    requires ValidCatalog(cat) && Ranked(cat, rank) && ChildrenKnown(cat, es) && RankedBelow(es, rank, bound)
    requires child in cat && child in rank && rank[child] < bound && cat[child].bom.None?
    requires FoldChildren(cat, es, rank, bound) == Returns(acc)
    requires child !in Keys(acc.entries) && PositiveEntries(acc.entries) && inst.qty.value > 0.0
    ensures ChildrenKnown(cat, es + [(child, inst)]) && RankedBelow(es + [(child, inst)], rank, bound)
    ensures FoldChildren(cat, es + [(child, inst)], rank, bound) == Returns(Bom(acc.entries + [(child, inst)]))
  {
    FoldSnoc(cat, es, child, inst, rank, bound, acc);
    assert [(child, inst)][1..] == [];
    AddDisjointBoms(acc, Bom([(child, inst)]));
  }

  /** Once the fold has raised, the entries after it change nothing. */
  lemma {:induction false} FoldRaisesOnward(cat: Catalog, es: seq<(ProductRef, Instance)>, k: nat,
                                            rank: map<ProductRef, nat>, bound: nat)
    requires ValidCatalog(cat) && Ranked(cat, rank) && ChildrenKnown(cat, es) && RankedBelow(es, rank, bound)
    requires k <= |es| && FoldChildren(cat, es[..k], rank, bound).Raises?
    ensures FoldChildren(cat, es, rank, bound) == FoldChildren(cat, es[..k], rank, bound)
    decreases |es|
  {
    if k < |es| {
      var init := es[..|es| - 1];
      assert init[..k] == es[..k];
      FoldRaisesOnward(cat, init, k, rank, bound);
    } else {
      assert es[..k] == es;
    }
  }

  /** `Product.get_final_bom`, with its loop and its recursive calls. `if self.bom:` holds
      for every BoM object, an empty one included, since `BoM` defines neither `__bool__`
      nor `__len__`. */
  method GetFinalBom(cat: Catalog, p: ProductRef, ghost rank: map<ProductRef, nat>) returns (r: Outcome<Bom>)
    requires ValidCatalog(cat) && Ranked(cat, rank) && p in cat
    ensures r == FinalBom(cat, p, rank)
    decreases rank[p]
  {
    var product := cat[p];
    r := Returns(Bom([(p, Instance(p, product.reference))]));
    if product.bom.Some? {
      var es := product.bom.value.entries;
      var finalBom := Bom([]);
      var i := 0;
      while i < |es|
        invariant 0 <= i <= |es|
        invariant FoldChildren(cat, es[..i], rank, rank[p]) == Returns(finalBom)
      {
        var (child, inst) := es[i];
        assert es[..i + 1][..i] == es[..i];
        var part: Outcome<Bom>;
        if cat[child].bom.None? {
          part := Returns(Bom([(child, inst)]));
        } else {
          var sub := GetFinalBom(cat, child, rank);
          part := if sub.Raises? then Raises(sub.error) else ScaleBom(sub.value, Qty(inst.qty));
        }
        var next := if part.Raises? then Raises(part.error) else AddBoms(finalBom, part.value);
        if next.Raises? {
          FoldRaisesOnward(cat, es, i + 1, rank, rank[p]);
          return next;
        }
        finalBom := next.value;
        i := i + 1;
      }
      assert es[..|es|] == es;
      r := Returns(finalBom);
    }
  }

  /** `ProductInstance.get_final_bom`: the product's flattened BoM scaled by the
      instance's quantity value (the unit of the quantity is not compared). */
  function InstanceFinalBom(cat: Catalog, inst: Instance, ghost rank: map<ProductRef, nat>): (r: Outcome<Bom>)
    requires ValidCatalog(cat) && Ranked(cat, rank) && inst.product in cat
    ensures r.Raises? <==> FinalBom(cat, inst.product, rank).Raises?
    ensures r.Returns? ==>
              Keys(r.value.entries) == Keys(FinalBom(cat, inst.product, rank).value.entries)
              && forall l :: Amount(r.value, l) == Amount(FinalBom(cat, inst.product, rank).value, l) * inst.qty.value
  {
    match FinalBom(cat, inst.product, rank)
    case Raises(e) => Raises(e)
    case Returns(b) =>
      ScaleEntriesAmounts(b.entries, inst.qty.value);
      ScaleBom(b, Qty(inst.qty))
  }

  // ---------------------------------------------------------------------------
  // What a flattened BoM holds
  // ---------------------------------------------------------------------------

  /** Every key names a raw material of the catalog. */
  predicate OnlyRawMaterials(cat: Catalog, b: Bom)
  {
    forall j :: j in Keys(b.entries) ==> j in cat && cat[j].bom.None?
  }

  /** A flattened BoM is a dict of raw materials only; a raw material flattens to itself. */
  lemma {:induction false} FinalBomIsRaw(cat: Catalog, p: ProductRef, rank: map<ProductRef, nat>)
    requires ValidCatalog(cat) && Ranked(cat, rank) && p in cat
    ensures cat[p].bom.None? ==> FinalBom(cat, p, rank) == Returns(Bom([(p, Instance(p, cat[p].reference))]))
    ensures FinalBom(cat, p, rank).Returns? ==>
              UniqueKeys(FinalBom(cat, p, rank).value.entries) && OnlyRawMaterials(cat, FinalBom(cat, p, rank).value)
    decreases rank[p], 1, 0
  {
    if cat[p].bom.Some? {
      FoldIsRaw(cat, cat[p].bom.value.entries, rank, rank[p]);
    }
  }

  lemma {:induction false} FoldIsRaw(cat: Catalog, es: seq<(ProductRef, Instance)>, rank: map<ProductRef, nat>, bound: nat)
    requires ValidCatalog(cat) && Ranked(cat, rank) && ChildrenKnown(cat, es) && RankedBelow(es, rank, bound)
    ensures FoldChildren(cat, es, rank, bound).Returns? ==>
              UniqueKeys(FoldChildren(cat, es, rank, bound).value.entries)
              && OnlyRawMaterials(cat, FoldChildren(cat, es, rank, bound).value)
    decreases bound, 0, |es|
  {
    if |es| > 0 {
      var init := es[..|es| - 1];
      var (child, inst) := es[|es| - 1];
      FoldIsRaw(cat, init, rank, bound);
      var acc := FoldChildren(cat, init, rank, bound);
      var part := Contribution(cat, child, inst, rank, bound);
      if acc.Returns? && part.Returns? {
        if cat[child].bom.Some? {
          FinalBomIsRaw(cat, child, rank);
          ScaleEntriesAmounts(FinalBom(cat, child, rank).value.entries, inst.qty.value);
        }
        AddBomsSpec(acc.value, part.value);
      }
    }
  }

  // ---------------------------------------------------------------------------
  // Amounts: what the flattening means on numbers
  // ---------------------------------------------------------------------------

  /** Every BoM of the catalog has positive values only. */
  predicate PositiveCatalog(cat: Catalog)
  {
    forall p :: p in cat && cat[p].bom.Some? ==> PositiveEntries(cat[p].bom.value.entries)
  }

  /** How much of raw material `l` one reference quantity of `p` holds: the sum, over
      every path from `p` down to `l`, of the product of the quantities along it. */
  ghost function RawAmount(cat: Catalog, p: ProductRef, l: ProductRef, rank: map<ProductRef, nat>): real
    requires ValidCatalog(cat) && Ranked(cat, rank) && p in cat
    decreases rank[p], 1, 0
  {
    match cat[p].bom
    case None => if p == l then cat[p].reference.value else 0.0
    case Some(b) => PathsAmount(cat, b.entries, l, rank, rank[p])
  }

  ghost function PathsAmount(cat: Catalog, es: seq<(ProductRef, Instance)>, l: ProductRef, rank: map<ProductRef, nat>, bound: nat): real
    requires ValidCatalog(cat) && Ranked(cat, rank) && ChildrenKnown(cat, es) && RankedBelow(es, rank, bound)
    decreases bound, 0, |es|
  {
    if |es| == 0 then 0.0
    else PathsAmount(cat, es[..|es| - 1], l, rank, bound) + EntryAmount(cat, es[|es| - 1].0, es[|es| - 1].1, l, rank, bound)
  }

  /** How much of `l` the entry `inst` filed under `child` brings. */
  ghost function EntryAmount(cat: Catalog, child: ProductRef, inst: Instance, l: ProductRef, rank: map<ProductRef, nat>, bound: nat): real
    requires ValidCatalog(cat) && Ranked(cat, rank) && child in cat && child in rank && rank[child] < bound
    decreases bound, 0, 0
  {
    if cat[child].bom.None? then (if child == l then inst.qty.value else 0.0)
    else inst.qty.value * RawAmount(cat, child, l, rank)
  }

  /** With positive quantities nothing is dropped along the way: a successful flattening
      of a composite product records under every raw material the sum over all paths to
      it (a raw material reached along several paths is summed), and every recorded value
      is positive. */
  lemma {:induction false} FinalBomAmounts(cat: Catalog, p: ProductRef, rank: map<ProductRef, nat>)
    requires ValidCatalog(cat) && Ranked(cat, rank) && PositiveCatalog(cat) && p in cat
    requires FinalBom(cat, p, rank).Returns?
    ensures forall l :: Amount(FinalBom(cat, p, rank).value, l) == RawAmount(cat, p, l, rank)
    ensures cat[p].bom.Some? ==> PositiveEntries(FinalBom(cat, p, rank).value.entries)
    decreases rank[p], 1, 0
  {
    if cat[p].bom.Some? {
      FoldAmounts(cat, cat[p].bom.value.entries, rank, rank[p]);
    } else {
      var f := FinalBom(cat, p, rank).value;
      assert f.entries[1..] == [];
    }
  }

  lemma {:induction false} FoldAmounts(cat: Catalog, es: seq<(ProductRef, Instance)>, rank: map<ProductRef, nat>, bound: nat)
    requires ValidCatalog(cat) && Ranked(cat, rank) && PositiveCatalog(cat)
    requires ChildrenKnown(cat, es) && RankedBelow(es, rank, bound) && PositiveEntries(es)
    requires FoldChildren(cat, es, rank, bound).Returns?
    ensures forall l :: Amount(FoldChildren(cat, es, rank, bound).value, l) == PathsAmount(cat, es, l, rank, bound)
    ensures PositiveEntries(FoldChildren(cat, es, rank, bound).value.entries)
    decreases bound, 0, |es|
  {
    if |es| > 0 {
      var init := es[..|es| - 1];
      var (child, inst) := es[|es| - 1];
      var acc := FoldChildren(cat, init, rank, bound).value;
      var part := Contribution(cat, child, inst, rank, bound).value;
      assert FoldChildren(cat, es, rank, bound) == AddBoms(acc, part);
      FoldAmounts(cat, init, rank, bound);
      FoldIsRaw(cat, init, rank, bound);
      ContributionAmounts(cat, child, inst, rank, bound);
      AddPositiveBoms(acc, part);
    }
  }

  /** One entry's contribution, on numbers. */
  lemma {:induction false} ContributionAmounts(cat: Catalog, child: ProductRef, inst: Instance, rank: map<ProductRef, nat>, bound: nat)
    requires ValidCatalog(cat) && Ranked(cat, rank) && PositiveCatalog(cat)
    requires child in cat && child in rank && rank[child] < bound && inst.qty.value > 0.0
    requires Contribution(cat, child, inst, rank, bound).Returns?
    ensures var part := Contribution(cat, child, inst, rank, bound).value;
            UniqueKeys(part.entries) && PositiveEntries(part.entries)
            && forall l :: Amount(part, l) == EntryAmount(cat, child, inst, l, rank, bound)
    decreases bound, 0, 0
  {
    var part := Contribution(cat, child, inst, rank, bound).value;
    if cat[child].bom.None? {
      assert part.entries[1..] == [];
    } else {
      var sub := FinalBom(cat, child, rank).value;
      FinalBomAmounts(cat, child, rank);
      FinalBomIsRaw(cat, child, rank);
      ScaleEntriesAmounts(sub.entries, inst.qty.value);
    }
  }

  // ---------------------------------------------------------------------------
  // Conservation
  // ---------------------------------------------------------------------------

  /** Every product of the catalog passed `Product.__init__`: a BoM adds up to the
      reference value. */
  predicate AcceptedCatalog(cat: Catalog)
  {
    forall p :: p in cat ==> MakeProduct(cat[p].name, cat[p].reference, cat[p].bom).Returns?
  }

  /** Every composite product that some BoM uses has a reference value of 1, so that its
      BoM is given per unit of it. */
  predicate PerUnitSubassemblies(cat: Catalog)
  {
    forall p :: p in cat && cat[p].bom.Some? ==> PerUnitChildren(cat, cat[p].bom.value.entries)
  }

  predicate PerUnitChildren(cat: Catalog, es: seq<(ProductRef, Instance)>)
  {
    forall i :: 0 <= i < |es| && es[i].0 in cat && cat[es[i].0].bom.Some? ==> cat[es[i].0].reference.value == 1.0
  }

  /** Mass is conserved when every subassembly is given per unit: the flattened BoM of a
      product adds up to its reference value. Scaling a child's flattened BoM by the
      entry's quantity alone (product.py:113) is only right for such children; see
      `Example.AbsoluteScalingInflates` for one that is not. */
  lemma {:induction false} FinalBomTotal(cat: Catalog, p: ProductRef, rank: map<ProductRef, nat>)
    requires ValidCatalog(cat) && Ranked(cat, rank) && PositiveCatalog(cat) && AcceptedCatalog(cat)
    requires PerUnitSubassemblies(cat) && p in cat && FinalBom(cat, p, rank).Returns?
    ensures QuantityTotal(FinalBom(cat, p, rank).value) == cat[p].reference.value
    decreases rank[p], 1, 0
  {
    if cat[p].bom.Some? {
      assert MakeProduct(cat[p].name, cat[p].reference, cat[p].bom).Returns?;
      FoldTotal(cat, cat[p].bom.value.entries, rank, rank[p]);
    } else {
      TotalIsAmountSum([(p, Instance(p, cat[p].reference))]);
    }
  }

  lemma {:induction false} FoldTotal(cat: Catalog, es: seq<(ProductRef, Instance)>, rank: map<ProductRef, nat>, bound: nat)
    requires ValidCatalog(cat) && Ranked(cat, rank) && PositiveCatalog(cat) && AcceptedCatalog(cat) && PerUnitSubassemblies(cat)
    requires ChildrenKnown(cat, es) && RankedBelow(es, rank, bound) && PositiveEntries(es) && PerUnitChildren(cat, es)
    requires FoldChildren(cat, es, rank, bound).Returns?
    ensures QuantityTotal(FoldChildren(cat, es, rank, bound).value) == QuantityTotal(Bom(es))
    decreases bound, 0, |es|
  {
    if |es| > 0 {
      var init := es[..|es| - 1];
      var (child, inst) := es[|es| - 1];
      var acc := FoldChildren(cat, init, rank, bound).value;
      var part := Contribution(cat, child, inst, rank, bound).value;
      assert FoldChildren(cat, es, rank, bound) == AddBoms(acc, part);
      FoldTotal(cat, init, rank, bound);
      FoldAmounts(cat, init, rank, bound);
      FoldIsRaw(cat, init, rank, bound);
      ContributionAmounts(cat, child, inst, rank, bound);
      ContributionTotal(cat, child, inst, rank, bound);
      AddBomsTotal(acc, part);
      assert EntryQuantities(es)[..|es| - 1] == EntryQuantities(init);
    } else {
      assert EntryQuantities(es) == [];
    }
  }

  /** One entry brings its own quantity: a raw child as it is, a per-unit subassembly as
      its flattened BoM scaled by the entry's value. */
  lemma {:induction false} ContributionTotal(cat: Catalog, child: ProductRef, inst: Instance, rank: map<ProductRef, nat>, bound: nat)
    requires ValidCatalog(cat) && Ranked(cat, rank) && PositiveCatalog(cat) && AcceptedCatalog(cat) && PerUnitSubassemblies(cat)
    requires child in cat && child in rank && rank[child] < bound
    requires cat[child].bom.Some? ==> cat[child].reference.value == 1.0
    requires Contribution(cat, child, inst, rank, bound).Returns?
    ensures QuantityTotal(Contribution(cat, child, inst, rank, bound).value) == inst.qty.value
    decreases bound, 0, 0
  {
    if cat[child].bom.None? {
      TotalIsAmountSum([(child, inst)]);
    } else {
      var sub := FinalBom(cat, child, rank).value;
      FinalBomTotal(cat, child, rank);
      ScaleEntriesTotal(sub.entries, inst.qty.value);
      assert Contribution(cat, child, inst, rank, bound).value == Bom(ScaleEntries(sub.entries, inst.qty.value));
    }
  }

  // ---------------------------------------------------------------------------
  // When flattening cannot fail
  // ---------------------------------------------------------------------------

  /** Every entry stores an instance of the product it is filed under, in unit `u`. */
  predicate Homogeneous(es: seq<(ProductRef, Instance)>, u: UnitRef)
  {
    forall i :: 0 <= i < |es| ==> es[i].1.product == es[i].0 && es[i].1.qty.unit == u
  }

  /** The same, key by key. */
  predicate KeyedInUnit(b: Bom, u: UnitRef)
  {
    forall j :: j in Keys(b.entries) ==> Get(b.entries, j).value.product == j && Get(b.entries, j).value.qty.unit == u
  }

  /** A catalog whose BoMs file every instance under its own product, all in one unit. */
  predicate SingleUnit(cat: Catalog, u: UnitRef)
  {
    forall p :: p in cat && cat[p].bom.Some? ==> Homogeneous(cat[p].bom.value.entries, u)
  }

  /** Flattening raises only when an addition clashes: over a catalog in one unit whose
      entries are filed under their own products it always succeeds, and the flattened
      BoM of a composite product is again filed that way. */
  lemma {:induction false} FinalBomSucceeds(cat: Catalog, p: ProductRef, rank: map<ProductRef, nat>, u: UnitRef)
    requires ValidCatalog(cat) && Ranked(cat, rank) && SingleUnit(cat, u) && p in cat
    ensures FinalBom(cat, p, rank).Returns?
    ensures cat[p].bom.Some? ==> KeyedInUnit(FinalBom(cat, p, rank).value, u)
    decreases rank[p], 1, 0
  {
    if cat[p].bom.Some? {
      FoldSucceeds(cat, cat[p].bom.value.entries, rank, rank[p], u);
    }
  }

  lemma {:induction false} FoldSucceeds(cat: Catalog, es: seq<(ProductRef, Instance)>, rank: map<ProductRef, nat>, bound: nat, u: UnitRef)
    requires ValidCatalog(cat) && Ranked(cat, rank) && SingleUnit(cat, u)
    requires ChildrenKnown(cat, es) && RankedBelow(es, rank, bound) && Homogeneous(es, u)
    ensures FoldChildren(cat, es, rank, bound).Returns?
    ensures KeyedInUnit(FoldChildren(cat, es, rank, bound).value, u)
    decreases bound, 0, |es|
  {
    if |es| > 0 {
      var init := es[..|es| - 1];
      var (child, inst) := es[|es| - 1];
      FoldSucceeds(cat, init, rank, bound, u);
      FoldIsRaw(cat, init, rank, bound);
      var acc := FoldChildren(cat, init, rank, bound).value;
      if cat[child].bom.None? {
        assert Contribution(cat, child, inst, rank, bound).value.entries[1..] == [];
      } else {
        FinalBomSucceeds(cat, child, rank, u);
        FinalBomIsRaw(cat, child, rank);
        ScaleEntriesAmounts(FinalBom(cat, child, rank).value.entries, inst.qty.value);
      }
      var part := Contribution(cat, child, inst, rank, bound).value;
      assert KeyedInUnit(part, u);
      AddBomsSpec(acc, part);
      assert forall j :: !Clash(acc, part, j);
    }
  }
}
