/**
 * `Product`, `BoM` and `ProductInstance` of batterway/datamodel/generic/product.py:
 * the construction check of a product, BoM addition with `collections.Counter`
 * semantics, BoM scaling, BoM membership and the scaled BoM of an instance.
 */
module Boms {
  import opened Outcomes
  import opened Algebra
  import opened Dicts

  /** A `BoM`: its `product_quantities` dict from Product to ProductInstance, in order. */
  datatype Bom = Bom(entries: seq<(ProductRef, Instance)>)

  /** A `Product` (name, reference quantity, BoM); `bom == None` marks a raw material.
      The IRI is not modelled. */
  datatype Product = Product(name: string, reference: Quantity, bom: Option<Bom>)

  /** The Product objects in play, by identity. */
  type Catalog = map<ProductRef, Product>

  predicate IsLeaf(cat: Catalog, p: ProductRef)
    requires p in cat
  {
    cat[p].bom.None?
  }

  /** The value that `> 0` looks at in an instance. */
  function QtyValue(i: Instance): real
  {
    i.qty.value
  }

  /** The quantity value recorded under key `k`, 0 when `k` is absent. */
  function Amount(b: Bom, k: ProductRef): real
  {
    match Get(b.entries, k)
    case None => 0.0
    case Some(i) => i.qty.value
  }

  predicate PositiveEntries(es: seq<(ProductRef, Instance)>)
  {
    forall i :: 0 <= i < |es| ==> es[i].1.qty.value > 0.0
  }

  /** Every value stores an instance of the product it is filed under. */
  predicate KeyedByProduct(es: seq<(ProductRef, Instance)>)
  {
    forall i :: 0 <= i < |es| ==> es[i].1.product == es[i].0
  }

  function EntryQuantities(es: seq<(ProductRef, Instance)>): (qs: seq<Quantity>)
    ensures |qs| == |es| && forall i :: 0 <= i < |es| ==> qs[i] == es[i].1.qty
  {
    seq(|es|, i requires 0 <= i < |es| => es[i].1.qty)
  }

  /** `BoM.quantity_total`: the plain sum of the entries' values; units play no part. */
  function QuantityTotal(b: Bom): real
  {
    ValueSum(EntryQuantities(b.entries))
  }

  /** `BoM.products`: the product of every value instance, in order. */
  function Products(b: Bom): (ps: seq<ProductRef>)
    ensures |ps| == |b.entries| && forall i :: 0 <= i < |ps| ==> ps[i] == b.entries[i].1.product
  {
    seq(|b.entries|, i requires 0 <= i < |b.entries| => b.entries[i].1.product)
  }

  // ---------------------------------------------------------------------------
  // Product construction
  // ---------------------------------------------------------------------------

  /** `Product.__init__`: rejects a BoM whose quantity total differs from the reference
      value. `total != reference` compares a float with a Quantity, which Python turns
      into `Quantity.__eq__(total)`, so the reference unit is never compared. */
  function MakeProduct(name: string, reference: Quantity, bom: Option<Bom>): (r: Outcome<Product>)
    ensures r.Raises? <==> bom.Some? && QuantityTotal(bom.value) != reference.value
    ensures r.Raises? ==> r.error == ValueError
    ensures r.Returns? ==> r.value == Product(name, reference, bom)
  {
    if bom.Some? && !QuantityEq(reference, Num(QuantityTotal(bom.value))) then Raises(ValueError)
    else Returns(Product(name, reference, bom))
  }

  /** An empty BoM is accepted exactly for a zero reference value, in any unit. */
  lemma EmptyBomNeedsZeroReference(name: string, reference: Quantity)
    ensures MakeProduct(name, reference, Some(Bom([]))).Returns? <==> reference.value == 0.0
  {
    assert EntryQuantities([]) == [];
  }

  // ---------------------------------------------------------------------------
  // BoM + BoM
  // ---------------------------------------------------------------------------

  /** `BoM.__add__`: `dict(Counter(self) + Counter(other))`, whose `+` on a shared key is
      `ProductInstance + ProductInstance` and whose `> 0` compares the quantity value. */
  function AddBoms(a: Bom, b: Bom): Outcome<Bom>
  {
    match CounterAdd(a.entries, b.entries, AddInstances, QtyValue)
    case Raises(e) => Raises(e)
    case Returns(es) => Returns(Bom(es))
  }

  /** Whether the instances filed under the shared key `j` cannot be added: other product
      objects or other unit objects. */
  predicate Clash(a: Bom, b: Bom, j: ProductRef)
  {
    Get(a.entries, j).Some? && Get(b.entries, j).Some?
    && (Get(a.entries, j).value.product != Get(b.entries, j).value.product
        || Get(a.entries, j).value.qty.unit != Get(b.entries, j).value.qty.unit)
  }

  /** BoM addition sums shared keys, keeps one-sided keys and drops every key whose
      resulting value is not positive; the left side's product and unit are kept. It
      raises ValueError exactly when a shared key's instances clash. */
  lemma AddBomsSpec(a: Bom, b: Bom)
    requires UniqueKeys(a.entries) && UniqueKeys(b.entries)
    ensures AddBoms(a, b).Raises? <==> exists j :: Clash(a, b, j)
    ensures AddBoms(a, b).Raises? ==> AddBoms(a, b).error == ValueError
    ensures AddBoms(a, b).Returns? ==>
              var r := AddBoms(a, b).value;
              UniqueKeys(r.entries)
              && (forall j :: j in Keys(r.entries) <==>
                    (j in Keys(a.entries) + Keys(b.entries) && Amount(a, j) + Amount(b, j) > 0.0))
              && (forall j :: Amount(r, j) == Positive(Amount(a, j) + Amount(b, j)))
              && (forall j :: j in Keys(r.entries) ==>
                    Get(r.entries, j).value ==
                      if j in Keys(a.entries)
                      then Instance(Get(a.entries, j).value.product,
                                    Quantity(Amount(a, j) + Amount(b, j), Get(a.entries, j).value.qty.unit))
                      else Get(b.entries, j).value)
  {
    CounterAddSpec(a.entries, b.entries, AddInstances, QtyValue);
    var c := CounterAdd(a.entries, b.entries, AddInstances, QtyValue);
    forall j ensures SharedKeyFails(a.entries, b.entries, AddInstances, j) <==> Clash(a, b, j) {
    }
    if c.Returns? {
      AddedBomValues(a, b);
      AddedBomInstances(a, b);
    } else {
      var j :| SharedKeyFails(a.entries, b.entries, AddInstances, j)
               && c.error == AddInstances(Get(a.entries, j).value, Get(b.entries, j).value).error;
    }
  }

  /** The keys and amounts of a BoM sum that did not raise. */
  lemma AddedBomValues(a: Bom, b: Bom)
    requires UniqueKeys(a.entries) && UniqueKeys(b.entries) && AddBoms(a, b).Returns?
    ensures var r := AddBoms(a, b).value;
            (forall j :: j in Keys(r.entries) <==>
               (j in Keys(a.entries) + Keys(b.entries) && Amount(a, j) + Amount(b, j) > 0.0))
            && (forall j :: Amount(r, j) == Positive(Amount(a, j) + Amount(b, j)))
  {
    CounterAddSpec(a.entries, b.entries, AddInstances, QtyValue);
    var r := AddBoms(a, b).value;
    forall j ensures j in Keys(r.entries) <==>
                  (j in Keys(a.entries) + Keys(b.entries) && Amount(a, j) + Amount(b, j) > 0.0)
    {
      assert !SharedKeyFails(a.entries, b.entries, AddInstances, j);
      assert Get(r.entries, j) == Expected(a.entries, b.entries, AddInstances, QtyValue, j);
    }
    forall j ensures Amount(r, j) == Positive(Amount(a, j) + Amount(b, j)) {
      assert Get(r.entries, j) == Expected(a.entries, b.entries, AddInstances, QtyValue, j);
    }
  }

  /** The instances of a BoM sum that did not raise: the left side's product and unit, with
      the summed value, or the right side's instance for a key only it has. */
  lemma AddedBomInstances(a: Bom, b: Bom)
    requires UniqueKeys(a.entries) && UniqueKeys(b.entries) && AddBoms(a, b).Returns?
    ensures var r := AddBoms(a, b).value;
            UniqueKeys(r.entries) && Keys(r.entries) <= Keys(a.entries) + Keys(b.entries)
            && forall j :: j in Keys(r.entries) ==>
                 Get(r.entries, j).value ==
                   if j in Keys(a.entries)
                   then Instance(Get(a.entries, j).value.product,
                                 Quantity(Amount(a, j) + Amount(b, j), Get(a.entries, j).value.qty.unit))
                   else Get(b.entries, j).value
  {
    CounterAddSpec(a.entries, b.entries, AddInstances, QtyValue);
    var r := AddBoms(a, b).value;
    forall j | j in Keys(r.entries)
      ensures Get(r.entries, j).value ==
                if j in Keys(a.entries)
                then Instance(Get(a.entries, j).value.product,
                              Quantity(Amount(a, j) + Amount(b, j), Get(a.entries, j).value.qty.unit))
                else Get(b.entries, j).value
    {
      assert !SharedKeyFails(a.entries, b.entries, AddInstances, j);
      assert Get(r.entries, j) == Expected(a.entries, b.entries, AddInstances, QtyValue, j);
    }
  }

  /** Between BoMs with positive values nothing is dropped: the values add up key by key
      and stay positive. */
  lemma AddPositiveBoms(a: Bom, b: Bom)
    requires UniqueKeys(a.entries) && UniqueKeys(b.entries)
    requires PositiveEntries(a.entries) && PositiveEntries(b.entries)
    requires AddBoms(a, b).Returns?
    ensures PositiveEntries(AddBoms(a, b).value.entries)
    ensures Keys(AddBoms(a, b).value.entries) == Keys(a.entries) + Keys(b.entries)
    ensures forall j :: Amount(AddBoms(a, b).value, j) == Amount(a, j) + Amount(b, j)
  {
    AddBomsSpec(a, b);
    var r := AddBoms(a, b).value;
    forall j | j in Keys(a.entries) ensures Amount(a, j) > 0.0 {
      PositiveAmount(a, j);
    }
    forall j | j in Keys(b.entries) ensures Amount(b, j) > 0.0 {
      PositiveAmount(b, j);
    }
    forall j | j !in Keys(a.entries) ensures Amount(a, j) == 0.0 { }
    forall j | j !in Keys(b.entries) ensures Amount(b, j) == 0.0 { }
    forall i | 0 <= i < |r.entries| ensures r.entries[i].1.qty.value > 0.0 {
      GetAt(r.entries, i);
    }
  }

  /** Positive BoMs without a shared key add up to their concatenation. */
  lemma AddDisjointBoms(a: Bom, b: Bom)
    requires Keys(a.entries) !! Keys(b.entries)
    requires PositiveEntries(a.entries) && PositiveEntries(b.entries)
    ensures AddBoms(a, b) == Returns(Bom(a.entries + b.entries))
  {
    CounterAddDisjoint(a.entries, b.entries, AddInstances, QtyValue);
  }

  /** Between BoMs with positive values nothing is lost: the quantity total of the sum is
      the sum of the quantity totals. */
  lemma {:induction false} AddBomsTotal(a: Bom, b: Bom)
    requires UniqueKeys(a.entries) && UniqueKeys(b.entries)
    requires PositiveEntries(a.entries) && PositiveEntries(b.entries)
    requires AddBoms(a, b).Returns?
    ensures QuantityTotal(AddBoms(a, b).value) == QuantityTotal(a) + QuantityTotal(b)
  {
    assert AmountAdditive(AddInstances, QtyValue);
    CounterAddTotal(a.entries, b.entries, AddInstances, QtyValue);
    TotalIsAmountSum(a.entries);
    TotalIsAmountSum(b.entries);
    TotalIsAmountSum(AddBoms(a, b).value.entries);
  }

  /** `quantity_total` adds the values up in list order, whichever end one starts from. */
  lemma {:induction false} TotalIsAmountSum(es: seq<(ProductRef, Instance)>)
    ensures QuantityTotal(Bom(es)) == AmountSum(es, QtyValue)
  {
    if |es| > 0 {
      var init, last := es[..|es| - 1], es[|es| - 1];
      TotalIsAmountSum(init);
      assert EntryQuantities(es)[..|es| - 1] == EntryQuantities(init);
      assert es == init + [last];
      AmountSumConcat(init, [last], QtyValue);
      var none: seq<(ProductRef, Instance)> := [];
      assert [last][1..] == none;
    }
  }

  /** A present key of a BoM with positive values has a positive amount. */
  lemma {:induction false} PositiveAmount(b: Bom, j: ProductRef)
    requires PositiveEntries(b.entries) && j in Keys(b.entries)
    ensures Amount(b, j) > 0.0
    decreases |b.entries|
  {
    if b.entries[0].0 != j {
      PositiveAmount(Bom(b.entries[1..]), j);
    }
  }

  // ---------------------------------------------------------------------------
  // BoM * x
  // ---------------------------------------------------------------------------

  function ScaleEntries(es: seq<(ProductRef, Instance)>, factor: real): (r: seq<(ProductRef, Instance)>)
    ensures |r| == |es|
    ensures forall i :: 0 <= i < |es| ==> r[i] == (es[i].0, ScaleInstance(es[i].1, factor))
  {
    if |es| == 0 then [] else [(es[0].0, ScaleInstance(es[0].1, factor))] + ScaleEntries(es[1..], factor)
  }

  /** `BoM.__mul__`: a number or a Quantity scales every value, the Quantity by its value
      alone (`ProductInstance * Quantity` ignores the unit); anything else is a TypeError. */
  function ScaleBom(b: Bom, other: Operand): (r: Outcome<Bom>)
    ensures r.Raises? <==> !(other.Num? || other.Qty?)
    ensures r.Raises? ==> r.error == TypeError
    ensures r.Returns? ==>
              |r.value.entries| == |b.entries|
              && forall i :: 0 <= i < |b.entries| ==>
                   r.value.entries[i].0 == b.entries[i].0
                   && r.value.entries[i].1.product == b.entries[i].1.product
                   && r.value.entries[i].1.qty ==
                        Quantity(b.entries[i].1.qty.value * Magnitude(other), b.entries[i].1.qty.unit)
  {
    if other.Num? || other.Qty? then Returns(Bom(ScaleEntries(b.entries, Magnitude(other))))
    else Raises(TypeError)
  }

  /** Scaling keeps the keys and multiplies every amount by the factor. */
  lemma {:induction false} ScaleEntriesAmounts(es: seq<(ProductRef, Instance)>, factor: real)
    ensures Keys(ScaleEntries(es, factor)) == Keys(es)
    ensures UniqueKeys(es) ==> UniqueKeys(ScaleEntries(es, factor))
    ensures forall j :: j in Keys(es) ==> Get(ScaleEntries(es, factor), j) == Some(ScaleInstance(Get(es, j).value, factor))
    ensures forall j :: Amount(Bom(ScaleEntries(es, factor)), j) == Amount(Bom(es), j) * factor
    ensures PositiveEntries(es) && factor > 0.0 ==> PositiveEntries(ScaleEntries(es, factor))
  {
    if |es| > 0 {
      var scaled := ScaleEntries(es, factor);
      ScaleEntriesAmounts(es[1..], factor);
      assert scaled[1..] == ScaleEntries(es[1..], factor);
      forall j ensures Amount(Bom(scaled), j) == Amount(Bom(es), j) * factor {
        if es[0].0 != j {
          assert Get(scaled, j) == Get(scaled[1..], j);
          assert Get(es, j) == Get(es[1..], j);
          assert Amount(Bom(scaled), j) == Amount(Bom(ScaleEntries(es[1..], factor)), j);
        } else {
          assert Get(scaled, j) == Some(ScaleInstance(es[0].1, factor));
        }
      }
    }
  }

  /** Scaling every value by `factor` scales the quantity total by `factor`. */
  lemma {:induction false} ScaleEntriesTotal(es: seq<(ProductRef, Instance)>, factor: real)
    ensures QuantityTotal(Bom(ScaleEntries(es, factor))) == QuantityTotal(Bom(es)) * factor
  {
    ScaledAmountSum(es, factor);
    TotalIsAmountSum(es);
    TotalIsAmountSum(ScaleEntries(es, factor));
  }

  lemma {:induction false} ScaledAmountSum(es: seq<(ProductRef, Instance)>, factor: real)
    ensures AmountSum(ScaleEntries(es, factor), QtyValue) == AmountSum(es, QtyValue) * factor
  {
    if |es| > 0 {
      var scaled := ScaleEntries(es, factor);
      assert scaled[1..] == ScaleEntries(es[1..], factor);
      ScaledAmountSum(es[1..], factor);
      var x, rest := es[0].1.qty.value, AmountSum(es[1..], QtyValue);
      assert AmountSum(scaled, QtyValue) == x * factor + rest * factor;
      assert (x + rest) * factor == x * factor + rest * factor;
    }
  }

  // ---------------------------------------------------------------------------
  // Membership and instances
  // ---------------------------------------------------------------------------

  /** What `x in bom` may be asked about. */
  datatype Member = Named(name: string) | OfProduct(p: ProductRef) | OfInstance(i: Instance) | Unsupported

  /** The products a BoM's values refer to are known. */
  predicate Resolved(cat: Catalog, b: Bom)
  {
    forall i :: 0 <= i < |b.entries| ==> b.entries[i].1.product in cat
  }

  /** `BoM.__contains__`: a string matches a product name, a Product or a ProductInstance
      matches the product object; both look at the values' products, not at the keys.
      Any other item gives `None`, which `in` reads as false. */
  function Contains(cat: Catalog, b: Bom, item: Member): (r: bool)
    requires Resolved(cat, b)
    ensures item.Named? ==>
              (r <==> exists i :: 0 <= i < |b.entries| && cat[b.entries[i].1.product].name == item.name)
    ensures item.OfProduct? ==> (r <==> exists i :: 0 <= i < |b.entries| && b.entries[i].1.product == item.p)
    ensures item.OfInstance? ==>
              (r <==> exists i :: 0 <= i < |b.entries| && b.entries[i].1.product == item.i.product)
    ensures item.Unsupported? ==> !r
  {
    var ps := Products(b);
    match item
    case Named(s) =>
      var names := seq(|ps|, i requires 0 <= i < |ps| => cat[ps[i]].name);
      assert forall i :: 0 <= i < |ps| ==> names[i] == cat[b.entries[i].1.product].name;
      s in names
    case OfProduct(p) => p in ps
    case OfInstance(inst) => inst.product in ps
    case Unsupported => false
  }

  /** `ProductInstance.bom`: the product's BoM with every value scaled by the instance's
      quantity value; for a raw material it is the empty dict `{}`, shown here as an
      empty BoM. */
  function InstanceBom(cat: Catalog, inst: Instance): (r: Bom)
    requires inst.product in cat
    ensures cat[inst.product].bom.Some? ==> Returns(r) == ScaleBom(cat[inst.product].bom.value, Qty(inst.qty))
    ensures cat[inst.product].bom.None? ==> r.entries == []
    ensures cat[inst.product].bom.Some? ==>
              forall j :: Amount(r, j) == Amount(cat[inst.product].bom.value, j) * inst.qty.value
  {
    match cat[inst.product].bom
    case None => Bom([])
    case Some(b) =>
      ScaleEntriesAmounts(b.entries, inst.qty.value);
      Bom(ScaleEntries(b.entries, inst.qty.value))
  }
}
