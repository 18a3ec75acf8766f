/**
 * batterway/datamodel/generic/process.py: a recycling process whose input and output
 * flows are derived from its inputs through two ratio tables, and the adjacency rule of a
 * route of processes.
 *
 * A ratio table is the dict `{(influencing, influenced): ratio}` in insertion order. For
 * every entry whose influencing product is among the process's inputs, the influenced
 * product's accumulator (started at 0 in that product's reference unit) grows by the
 * input's quantity value times the ratio. The accumulators become the computed BoMs.
 */
module Processes {
  import opened Outcomes
  import opened Algebra
  import opened Dicts
  import opened Boms

  /** `{(influencing, influenced): ratio}`, in insertion order. */
  type RatioTable = seq<((ProductRef, ProductRef), real)>

  /** Every influenced product of the table is a known product. */
  predicate InfluencedKnown(cat: Catalog, table: RatioTable)
  {
    forall k :: 0 <= k < |table| ==> table[k].0.1 in cat
  }

  // ---------------------------------------------------------------------------
  // Coherency
  // ---------------------------------------------------------------------------

  /** Every influencing product of the table is among the inputs (`in` on a BoM). */
  predicate Coherent(cat: Catalog, inputs: Bom, table: RatioTable)
    requires Resolved(cat, inputs)
  {
    forall k :: 0 <= k < |table| ==> Contains(cat, inputs, OfProduct(table[k].0.0))
  }

  /** `not any(i_rel[0] not in self.inputs for i_rel in table)`, scanning the table in order. */
  function AllInfluencersIn(cat: Catalog, inputs: Bom, table: RatioTable): (r: bool)
    requires Resolved(cat, inputs)
    ensures r <==> Coherent(cat, inputs, table)
  {
    if |table| == 0 then true
    else
      assert forall k :: 1 <= k < |table| ==> table[1..][k - 1] == table[k];
      Contains(cat, inputs, OfProduct(table[0].0.0)) && AllInfluencersIn(cat, inputs, table[1..])
  }

  /** `RecyclingProcess._ensure_coherency`: ValueError when an influencing product of either
      table is not an input, else `True`. */
  function EnsureCoherency(cat: Catalog, inputs: Bom, inputToInput: RatioTable, inputToOutput: RatioTable): (r: Outcome<bool>)
    requires Resolved(cat, inputs)
    ensures r.Raises? <==> !Coherent(cat, inputs, inputToInput) || !Coherent(cat, inputs, inputToOutput)
    ensures r.Raises? ==> r.error == ValueError
    ensures r.Returns? ==> r.value
  {
    if !AllInfluencersIn(cat, inputs, inputToInput) then Raises(ValueError)
    else if !AllInfluencersIn(cat, inputs, inputToOutput) then Raises(ValueError)
    else Returns(true)
  }

  // ---------------------------------------------------------------------------
  // Ratio propagation
  // ---------------------------------------------------------------------------

  /** The part of an input value that a ratio passes on. */
  function Share(value: real, ratio: real): real
  {
    value * ratio
  }

  /** `acc + src * ratio` for an accumulator instance `acc` and an input quantity `src`:
      `ProductInstance + Quantity` adds only the value, so the unit of `src` is ignored. */
  function AddRatio(acc: Instance, src: Quantity, ratio: real): (r: Instance)
    ensures r == Instance(acc.product, Quantity(acc.qty.value + Share(src.value, ratio), acc.qty.unit))
  {
    var scaled := QuantityOp(Times, src, Num(ratio));
    assert !UnitClash(src, Num(ratio)) && Apply(Times, src.value, ratio) == src.value * ratio;
    assert scaled == Returns(Some(Quantity(src.value * ratio, src.unit)));
    assert Apply(Plus, acc.qty.value, src.value * ratio) == acc.qty.value + src.value * ratio;
    InstanceOp(Plus, acc, Qty(scaled.value.value)).value.value
  }

  /** `ProductInstance(p, Quantity(0, p.reference_quantity.unit))`. */
  function ZeroInstance(cat: Catalog, p: ProductRef): Instance
    requires p in cat
  {
    Instance(p, Quantity(0.0, cat[p].reference.unit))
  }

  /** One pass of the loop body of `_update_flow` over the entry `entry`. */
  function PropagateEntry(cat: Catalog, basis: Bom, acc: seq<(ProductRef, Instance)>, entry: ((ProductRef, ProductRef), real)): Outcome<seq<(ProductRef, Instance)>>
    requires Resolved(cat, basis) && entry.0.1 in cat
  {
    var infl := entry.0.0;
    var infd := entry.0.1;
    if !Contains(cat, basis, OfProduct(infl)) then Returns(acc)
    else
      var start := if infd in Keys(acc) then acc else Put(acc, infd, ZeroInstance(cat, infd));
      match Get(basis.entries, infl)
      case None => Raises(KeyError)
      case Some(src) => Returns(Put(start, infd, AddRatio(Get(start, infd).value, src.qty, entry.1)))
  }

  /** The accumulator dict after the loop of `_update_flow` has visited `table`, with
      `basis = self.inputs`. Membership is tested on the values' products but the value is
      then looked up by key, which raises KeyError when the two disagree. */
  function PropagatedFlows(cat: Catalog, basis: Bom, table: RatioTable): Outcome<seq<(ProductRef, Instance)>>
    requires Resolved(cat, basis) && InfluencedKnown(cat, table)
  {
    if |table| == 0 then Returns([])
    else
      match PropagatedFlows(cat, basis, table[..|table| - 1])
      case Raises(e) => Raises(e)
      case Returns(acc) => PropagateEntry(cat, basis, acc, table[|table| - 1])
  }

  /** The entry takes part: its influencing product is an input. */
  predicate Applies(cat: Catalog, basis: Bom, entry: ((ProductRef, ProductRef), real))
    requires Resolved(cat, basis)
  {
    Contains(cat, basis, OfProduct(entry.0.0))
  }

  /** The influenced products of the entries that take part. */
  function Touched(cat: Catalog, basis: Bom, table: RatioTable): set<ProductRef>
    requires Resolved(cat, basis)
  {
    set k | 0 <= k < |table| && Applies(cat, basis, table[k]) :: table[k].0.1
  }

  /** The sum, over the entries for `p` that take part, of the influencing input's value
      times the ratio. */
  function RatioTotal(cat: Catalog, basis: Bom, table: RatioTable, p: ProductRef): real
    requires Resolved(cat, basis)
  {
    if |table| == 0 then 0.0
    else
      var last := table[|table| - 1];
      RatioTotal(cat, basis, table[..|table| - 1], p)
      + if last.0.1 == p && Applies(cat, basis, last) then Share(Amount(basis, last.0.0), last.1) else 0.0
  }

  /** An entry that takes part but whose influencing product is not a key of the basis. */
  predicate MissingInfluencer(cat: Catalog, basis: Bom, table: RatioTable)
    requires Resolved(cat, basis)
  {
    exists k :: 0 <= k < |table| && Applies(cat, basis, table[k]) && table[k].0.0 !in Keys(basis.entries)
  }

  lemma {:induction false} UntouchedTotal(cat: Catalog, basis: Bom, table: RatioTable, p: ProductRef)
    requires Resolved(cat, basis) && p !in Touched(cat, basis, table)
    ensures RatioTotal(cat, basis, table, p) == 0.0
  {
    if |table| > 0 {
      var init := table[..|table| - 1];
      assert Touched(cat, basis, init) <= Touched(cat, basis, table) by {
        forall q | q in Touched(cat, basis, init) ensures q in Touched(cat, basis, table) {
          var k :| 0 <= k < |init| && Applies(cat, basis, init[k]) && init[k].0.1 == q;
          assert table[k] == init[k];
        }
      }
      UntouchedTotal(cat, basis, init, p);
    }
  }

  /** How the sets and sums of a table relate to those of the table without its last entry. */
  lemma LastEntry(cat: Catalog, basis: Bom, table: RatioTable)
    requires Resolved(cat, basis) && |table| > 0
    ensures var init := table[..|table| - 1];
            var last := table[|table| - 1];
            Touched(cat, basis, table) ==
              Touched(cat, basis, init) + (if Applies(cat, basis, last) then {last.0.1} else {})
            && (MissingInfluencer(cat, basis, table) <==>
                  MissingInfluencer(cat, basis, init) || (Applies(cat, basis, last) && last.0.0 !in Keys(basis.entries)))
  {
    var init := table[..|table| - 1];
    assert forall k :: 0 <= k < |init| ==> init[k] == table[k];
    var last := table[|table| - 1];
    forall q | q in Touched(cat, basis, table)
      ensures q in Touched(cat, basis, init) + (if Applies(cat, basis, last) then {last.0.1} else {})
    {
      var k :| 0 <= k < |table| && Applies(cat, basis, table[k]) && table[k].0.1 == q;
      if k < |init| {
        assert init[k] == table[k];
      }
    }
    if MissingInfluencer(cat, basis, table) {
      var k :| 0 <= k < |table| && Applies(cat, basis, table[k]) && table[k].0.0 !in Keys(basis.entries);
      if k < |init| {
        assert init[k] == table[k];
      }
    }
  }

  /** `acc` is the closed form of propagating `table`: a dict holding exactly the touched
      influenced products, each as an instance of itself in its reference unit whose value
      is the sum of its contributions. */
  predicate ClosedForm(cat: Catalog, basis: Bom, table: RatioTable, acc: seq<(ProductRef, Instance)>)
    requires Resolved(cat, basis)
  {
    UniqueKeys(acc) && Keys(acc) == Touched(cat, basis, table)
    && forall p :: p in Keys(acc) ==>
         p in cat && Get(acc, p) == Some(Instance(p, Quantity(RatioTotal(cat, basis, table, p), cat[p].reference.unit)))
  }

  /** The closed form of a ratio propagation. It raises KeyError exactly when an entry that
      takes part names an input that is not a key; otherwise its result holds exactly the
      touched influenced products, a total of zero included, each with the sum of its
      contributions, in its own reference unit. */
  lemma {:induction false} PropagatedFlowsSpec(cat: Catalog, basis: Bom, table: RatioTable)
    requires Resolved(cat, basis) && InfluencedKnown(cat, table)
    ensures PropagatedFlows(cat, basis, table).Raises? <==> MissingInfluencer(cat, basis, table)
    ensures PropagatedFlows(cat, basis, table).Raises? ==> PropagatedFlows(cat, basis, table).error == KeyError
    ensures PropagatedFlows(cat, basis, table).Returns? ==>
              ClosedForm(cat, basis, table, PropagatedFlows(cat, basis, table).value)
  {
    if |table| > 0 {
      var init := table[..|table| - 1];
      assert InfluencedKnown(cat, init) by {
        assert forall k :: 0 <= k < |init| ==> init[k] == table[k];
      }
      PropagatedFlowsSpec(cat, basis, init);
      LastEntry(cat, basis, table);
      var prev := PropagatedFlows(cat, basis, init);
      if prev.Returns? {
        PropagateEntrySpec(cat, basis, table, prev.value);
      }
    }
  }

  /** The last entry of a table turns the closed form of the rest into that of the table. */
  lemma PropagateEntrySpec(cat: Catalog, basis: Bom, table: RatioTable, acc: seq<(ProductRef, Instance)>)
    requires Resolved(cat, basis) && InfluencedKnown(cat, table) && |table| > 0
    requires ClosedForm(cat, basis, table[..|table| - 1], acc)
    ensures var r := PropagateEntry(cat, basis, acc, table[|table| - 1]);
            var last := table[|table| - 1];
            (r.Raises? <==> Applies(cat, basis, last) && last.0.0 !in Keys(basis.entries))
            && (r.Raises? ==> r.error == KeyError)
            && (r.Returns? ==> ClosedForm(cat, basis, table, r.value))
  {
    LastEntry(cat, basis, table);
    if !Applies(cat, basis, table[|table| - 1]) {
      SkippedEntry(cat, basis, table, acc);
    } else if table[|table| - 1].0.0 in Keys(basis.entries) {
      CountedEntry(cat, basis, table, acc);
    }
  }

  /** An entry whose influencing product is not an input changes nothing. */
  lemma SkippedEntry(cat: Catalog, basis: Bom, table: RatioTable, acc: seq<(ProductRef, Instance)>)
    requires Resolved(cat, basis) && InfluencedKnown(cat, table) && |table| > 0
    requires ClosedForm(cat, basis, table[..|table| - 1], acc)
    requires !Applies(cat, basis, table[|table| - 1])
    ensures PropagateEntry(cat, basis, acc, table[|table| - 1]) == Returns(acc)
    ensures ClosedForm(cat, basis, table, acc)
  {
    LastEntry(cat, basis, table);
  }

  /** An entry whose influencing product is an input and a key adds its contribution to
      the influenced product, which is added at zero if it was not there yet. */
  lemma CountedEntry(cat: Catalog, basis: Bom, table: RatioTable, acc: seq<(ProductRef, Instance)>)
    requires Resolved(cat, basis) && InfluencedKnown(cat, table) && |table| > 0
    requires ClosedForm(cat, basis, table[..|table| - 1], acc)
    requires Applies(cat, basis, table[|table| - 1]) && table[|table| - 1].0.0 in Keys(basis.entries)
    ensures PropagateEntry(cat, basis, acc, table[|table| - 1]).Returns?
    ensures ClosedForm(cat, basis, table, PropagateEntry(cat, basis, acc, table[|table| - 1]).value)
  {
    var init := table[..|table| - 1];
    var last := table[|table| - 1];
    var infl := last.0.0;
    var infd := last.0.1;
    var start := if infd in Keys(acc) then acc else Put(acc, infd, ZeroInstance(cat, infd));
    StartAtZero(cat, basis, init, acc, infd);
    var src := Get(basis.entries, infl).value;
    var r := Put(start, infd, AddRatio(Get(start, infd).value, src.qty, last.1));
    assert PropagateEntry(cat, basis, acc, last) == Returns(r);
    LastEntry(cat, basis, table);
    assert Keys(r) == Touched(cat, basis, table);
    AddShare(cat, basis, table, start, src);
  }

  /** Adding the last entry's share to an accumulator in closed form for the rest of the
      table gives one in closed form for the whole table. */
  lemma AddShare(cat: Catalog, basis: Bom, table: RatioTable, start: seq<(ProductRef, Instance)>, src: Instance)
    requires Resolved(cat, basis) && |table| > 0
    requires Applies(cat, basis, table[|table| - 1]) && Get(basis.entries, table[|table| - 1].0.0) == Some(src)
    requires table[|table| - 1].0.1 in Keys(start)
    requires forall p :: p in Keys(start) ==>
               p in cat && Get(start, p) == Some(Instance(p, Quantity(RatioTotal(cat, basis, table[..|table| - 1], p), cat[p].reference.unit)))
    ensures var last := table[|table| - 1];
            var r := Put(start, last.0.1, AddRatio(Get(start, last.0.1).value, src.qty, last.1));
            forall p :: p in Keys(r) ==>
              p in cat && Get(r, p) == Some(Instance(p, Quantity(RatioTotal(cat, basis, table, p), cat[p].reference.unit)))
  {
    var init := table[..|table| - 1];
    var last := table[|table| - 1];
    var infd := last.0.1;
    var r := Put(start, infd, AddRatio(Get(start, infd).value, src.qty, last.1));
    forall p | p in Keys(r)
      ensures p in cat && Get(r, p) == Some(Instance(p, Quantity(RatioTotal(cat, basis, table, p), cat[p].reference.unit)))
    {
      assert RatioTotal(cat, basis, table, p) ==
             RatioTotal(cat, basis, init, p) + if p == infd then Share(Amount(basis, last.0.0), last.1) else 0.0;
      if p == infd {
        assert Amount(basis, last.0.0) == src.qty.value;
      } else {
        assert p in Keys(start) && Get(r, p) == Get(start, p);
      }
    }
  }

  /** The accumulator after `if infd not in acc: acc[infd] = 0` is still in closed form, with
      `infd` present. */
  lemma StartAtZero(cat: Catalog, basis: Bom, init: RatioTable, acc: seq<(ProductRef, Instance)>, infd: ProductRef)
    requires Resolved(cat, basis) && ClosedForm(cat, basis, init, acc) && infd in cat
    ensures var start := if infd in Keys(acc) then acc else Put(acc, infd, ZeroInstance(cat, infd));
            UniqueKeys(start) && Keys(start) == Keys(acc) + {infd}
            && forall p :: p in Keys(start) ==>
                 p in cat && Get(start, p) == Some(Instance(p, Quantity(RatioTotal(cat, basis, init, p), cat[p].reference.unit)))
  {
    if infd !in Keys(acc) {
      UntouchedTotal(cat, basis, init, infd);
    }
  }

  /** Inputs whose values are filed under their own product never make the lookup fail. */
  lemma KeyedInputsNeverMissing(cat: Catalog, basis: Bom, table: RatioTable)
    requires Resolved(cat, basis) && UniqueKeys(basis.entries) && KeyedByProduct(basis.entries)
    ensures !MissingInfluencer(cat, basis, table)
  {
    forall k | 0 <= k < |table| && Applies(cat, basis, table[k]) ensures table[k].0.0 in Keys(basis.entries) {
      var i :| 0 <= i < |basis.entries| && basis.entries[i].1.product == table[k].0.0;
      GetAt(basis.entries, i);
    }
  }

  lemma {:induction false} PropagatedRaisesOnward(cat: Catalog, basis: Bom, table: RatioTable, k: nat)
    requires Resolved(cat, basis) && InfluencedKnown(cat, table)
    requires k <= |table| && PropagatedFlows(cat, basis, table[..k]).Raises?
    ensures PropagatedFlows(cat, basis, table) == PropagatedFlows(cat, basis, table[..k])
    decreases |table|
  {
    if k < |table| {
      var init := table[..|table| - 1];
      assert init[..k] == table[..k];
      assert InfluencedKnown(cat, init) by {
        assert forall j :: 0 <= j < |init| ==> init[j] == table[j];
      }
      PropagatedRaisesOnward(cat, basis, init, k);
    } else {
      assert table[..k] == table;
    }
  }

  /** One of the two loops of `_update_flow`, which fills the dict in place. */
  method Propagate(cat: Catalog, basis: Bom, table: RatioTable) returns (r: Outcome<seq<(ProductRef, Instance)>>)
    requires Resolved(cat, basis) && InfluencedKnown(cat, table)
    ensures r == PropagatedFlows(cat, basis, table)
  {
    var updated: seq<(ProductRef, Instance)> := [];
    var k := 0;
    while k < |table|
      invariant 0 <= k <= |table|
      invariant PropagatedFlows(cat, basis, table[..k]) == Returns(updated)
    {
      var infl := table[k].0.0;
      var infd := table[k].0.1;
      var ratio := table[k].1;
      assert table[..k + 1][..k] == table[..k];
      assert InfluencedKnown(cat, table[..k + 1]) by {
        assert forall j :: 0 <= j < k + 1 ==> table[..k + 1][j] == table[j];
      }
      if Contains(cat, basis, OfProduct(infl)) {
        if infd !in Keys(updated) {
          updated := Put(updated, infd, ZeroInstance(cat, infd));
        }
        var src := Get(basis.entries, infl);
        if src.None? {
          PropagatedRaisesOnward(cat, basis, table, k + 1);
          return Raises(KeyError);
        }
        updated := Put(updated, infd, AddRatio(Get(updated, infd).value, src.value.qty, ratio));
      }
      k := k + 1;
    }
    assert table[..|table|] == table;
    r := Returns(updated);
  }

  // ---------------------------------------------------------------------------
  // Fixed input quantities
  // ---------------------------------------------------------------------------

  /** `bom.set_quantity_of_product(name, qty)`. `BoM` defines no such method; it is taken to
      overwrite the value, in its own unit, of every entry whose product has that name. */
  function SetQuantityOfProduct(cat: Catalog, b: Bom, name: string, qty: real): (r: Bom)
    requires Resolved(cat, b)
    ensures |r.entries| == |b.entries| && Products(r) == Products(b)
    ensures forall i :: 0 <= i < |b.entries| ==>
              r.entries[i].0 == b.entries[i].0 && r.entries[i].1.qty.unit == b.entries[i].1.qty.unit
              && r.entries[i].1.qty.value == if cat[b.entries[i].1.product].name == name then qty else b.entries[i].1.qty.value
  {
    Bom(seq(|b.entries|, i requires 0 <= i < |b.entries| =>
      var (k, inst) := b.entries[i];
      if cat[inst.product].name == name then (k, Instance(inst.product, Quantity(qty, inst.qty.unit))) else (k, inst)))
  }

  /** The inputs after `set_quantity_of_product` has been called for every pair of
      `products_qty`, in order. */
  function ApplyFixed(cat: Catalog, b: Bom, productsQty: seq<(string, real)>): (r: Bom)
    requires Resolved(cat, b)
    ensures |r.entries| == |b.entries| && Products(r) == Products(b)
  {
    if |productsQty| == 0 then b
    else
      var prev := ApplyFixed(cat, b, productsQty[..|productsQty| - 1]);
      SetQuantityOfProduct(cat, prev, productsQty[|productsQty| - 1].0, productsQty[|productsQty| - 1].1)
  }

  /** The quantity `products_qty` gives for `name`: the last one given, if any. */
  function FixedQuantity(productsQty: seq<(string, real)>, name: string): Option<real>
  {
    if |productsQty| == 0 then None
    else if productsQty[|productsQty| - 1].0 == name then Some(productsQty[|productsQty| - 1].1)
    else FixedQuantity(productsQty[..|productsQty| - 1], name)
  }

  /** Fixing quantities keeps the keys, the products and the units of the inputs; an entry
      whose product is named in `products_qty` gets that quantity and every other entry
      keeps its own. */
  lemma {:induction false} ApplyFixedSpec(cat: Catalog, b: Bom, productsQty: seq<(string, real)>)
    requires Resolved(cat, b)
    ensures var r := ApplyFixed(cat, b, productsQty);
            forall i :: 0 <= i < |b.entries| ==>
              r.entries[i].0 == b.entries[i].0
              && r.entries[i].1.product == b.entries[i].1.product
              && r.entries[i].1.qty.unit == b.entries[i].1.qty.unit
              && r.entries[i].1.qty.value ==
                   match FixedQuantity(productsQty, cat[b.entries[i].1.product].name)
                   case None => b.entries[i].1.qty.value
                   case Some(q) => q
  {
    if |productsQty| > 0 {
      ApplyFixedSpec(cat, b, productsQty[..|productsQty| - 1]);
      var prev := ApplyFixed(cat, b, productsQty[..|productsQty| - 1]);
      assert forall i :: 0 <= i < |b.entries| ==> prev.entries[i].1.product == Products(prev)[i];
    }
  }

  /** Fixing quantities changes no product, so the process stays coherent. */
  lemma ApplyFixedKeepsCoherency(cat: Catalog, b: Bom, productsQty: seq<(string, real)>, table: RatioTable)
    requires Resolved(cat, b) && Coherent(cat, b, table)
    ensures Resolved(cat, ApplyFixed(cat, b, productsQty)) && Coherent(cat, ApplyFixed(cat, b, productsQty), table)
  {
    var r := ApplyFixed(cat, b, productsQty);
    assert forall i :: 0 <= i < |r.entries| ==> r.entries[i].1.product == Products(r)[i] == Products(b)[i];
  }

  /** `set_quantity_of_product` as the source calls it: the attribute does not exist on a
      `BoM`, so the call raises AttributeError. */
  function SetQuantityOfProductAsWritten(b: Bom, name: string, qty: real): Outcome<Bom>
  {
    Raises(AttributeError)
  }

  /** The loop of `update_fixed_input_lci` as written. */
  function ApplyFixedAsWritten(b: Bom, productsQty: seq<(string, real)>): Outcome<Bom>
  {
    if |productsQty| == 0 then Returns(b)
    else
      match ApplyFixedAsWritten(b, productsQty[..|productsQty| - 1])
      case Raises(e) => Raises(e)
      case Returns(prev) => SetQuantityOfProductAsWritten(prev, productsQty[|productsQty| - 1].0, productsQty[|productsQty| - 1].1)
  }

  /** As written, every non-empty `products_qty` stops `update_fixed_input_lci` with
      AttributeError before the flows are recomputed. */
  lemma {:induction false} FixedInputsAsWrittenAlwaysFail(b: Bom, productsQty: seq<(string, real)>)
    requires |productsQty| > 0
    ensures ApplyFixedAsWritten(b, productsQty) == Raises(AttributeError)
  {
    if |productsQty| > 1 {
      FixedInputsAsWrittenAlwaysFail(b, productsQty[..|productsQty| - 1]);
    }
  }

  // ---------------------------------------------------------------------------
  // RecyclingProcess
  // ---------------------------------------------------------------------------

  /** `RecyclingProcess`: a process with its two ratio tables and the BoMs last computed
      from them. */
  class RecyclingProcess {
    const name: string
    const cat: Catalog
    var inputs: Bom
    const outputs: Bom
    const inputToInput: RatioTable
    const inputToOutput: RatioTable
    var computedInputBom: Option<Bom>
    var computedOutputBom: Option<Bom>

    /** The tables name known products, every influencing product is an input, and a
        computed BoM, when present, is the propagation of the current inputs. */
    predicate Valid()
      reads this
    {
      Resolved(cat, inputs) && InfluencedKnown(cat, inputToInput) && InfluencedKnown(cat, inputToOutput)
      && Coherent(cat, inputs, inputToInput) && Coherent(cat, inputs, inputToOutput)
      && (computedInputBom.Some? ==> PropagatedFlows(cat, inputs, inputToInput) == Returns(computedInputBom.value.entries))
      && (computedOutputBom.Some? ==> PropagatedFlows(cat, inputs, inputToOutput) == Returns(computedOutputBom.value.entries))
    }

    /** The part of `__init__` after `_ensure_coherency` has passed. */
    constructor (name: string, cat: Catalog, inputs: Bom, outputs: Bom, inputToInput: RatioTable, inputToOutput: RatioTable)
      requires Resolved(cat, inputs) && InfluencedKnown(cat, inputToInput) && InfluencedKnown(cat, inputToOutput)
      requires Coherent(cat, inputs, inputToInput) && Coherent(cat, inputs, inputToOutput)
      ensures Valid()
      ensures this.name == name && this.cat == cat && this.inputs == inputs && this.outputs == outputs
      ensures this.inputToInput == inputToInput && this.inputToOutput == inputToOutput
      ensures computedInputBom == None && computedOutputBom == None
    {
      this.name := name;
      this.cat := cat;
      this.inputs := inputs;
      this.outputs := outputs;
      this.inputToInput := inputToInput;
      this.inputToOutput := inputToOutput;
      computedInputBom := None;
      computedOutputBom := None;
    }

    /** `RecyclingProcess(...)`: ValueError when an influencing product is not an input;
        otherwise a process with nothing computed yet. */
    static method Create(name: string, cat: Catalog, inputs: Bom, outputs: Bom, inputToInput: RatioTable, inputToOutput: RatioTable)
      returns (r: Outcome<RecyclingProcess>)
      requires Resolved(cat, inputs) && InfluencedKnown(cat, inputToInput) && InfluencedKnown(cat, inputToOutput)
      ensures r.Raises? <==> !Coherent(cat, inputs, inputToInput) || !Coherent(cat, inputs, inputToOutput)
      ensures r.Raises? ==> r.error == ValueError
      ensures r.Returns? ==>
                fresh(r.value) && r.value.Valid() && r.value.inputs == inputs
                && r.value.name == name && r.value.cat == cat && r.value.outputs == outputs
                && r.value.inputToInput == inputToInput && r.value.inputToOutput == inputToOutput
                && r.value.computedInputBom == None && r.value.computedOutputBom == None
    {
      var check := EnsureCoherency(cat, inputs, inputToInput, inputToOutput);
      if check.Raises? {
        return Raises(check.error);
      }
      var p := new RecyclingProcess(name, cat, inputs, outputs, inputToInput, inputToOutput);
      r := Returns(p);
    }

    /** `_update_flow`: both tables are propagated from the current inputs, and the two
        computed BoMs are set only when both loops have finished. */
    method UpdateFlow() returns (r: Outcome<()>)
      requires Valid()
      modifies this
      ensures Valid() && inputs == old(inputs)
      ensures r.Raises? <==>
                PropagatedFlows(cat, inputs, inputToInput).Raises? || PropagatedFlows(cat, inputs, inputToOutput).Raises?
      ensures r.Raises? ==> r.error == KeyError
      ensures r.Raises? ==> computedInputBom == old(computedInputBom) && computedOutputBom == old(computedOutputBom)
      ensures r.Returns? ==>
                computedInputBom == Some(Bom(PropagatedFlows(cat, inputs, inputToInput).value))
                && computedOutputBom == Some(Bom(PropagatedFlows(cat, inputs, inputToOutput).value))
    {
      PropagatedFlowsSpec(cat, inputs, inputToInput);
      PropagatedFlowsSpec(cat, inputs, inputToOutput);
      var inFlows := Propagate(cat, inputs, inputToInput);
      if inFlows.Raises? {
        return Raises(inFlows.error);
      }
      var outFlows := Propagate(cat, inputs, inputToOutput);
      if outFlows.Raises? {
        return Raises(outFlows.error);
      }
      computedOutputBom := Some(Bom(outFlows.value));
      computedInputBom := Some(Bom(inFlows.value));
      r := Returns(());
    }

    /** `update_fixed_input_lci`: the computed BoMs are cleared first; an empty argument
        then raises ValueError; otherwise the quantities are fixed in the inputs, in
        order, and the flows recomputed. */
    method UpdateFixedInputLci(productsQty: seq<(string, real)>) returns (r: Outcome<()>)
      requires Valid()
      modifies this
      ensures Valid()
      ensures |productsQty| == 0 ==>
                r == Raises(ValueError) && inputs == old(inputs) && computedInputBom == None && computedOutputBom == None
      ensures |productsQty| > 0 ==>
                inputs == ApplyFixed(cat, old(inputs), productsQty)
                && (r.Raises? <==>
                      PropagatedFlows(cat, inputs, inputToInput).Raises? || PropagatedFlows(cat, inputs, inputToOutput).Raises?)
                && (r.Raises? ==> r.error == KeyError && computedInputBom == None && computedOutputBom == None)
                && (r.Returns? ==>
                      computedInputBom == Some(Bom(PropagatedFlows(cat, inputs, inputToInput).value))
                      && computedOutputBom == Some(Bom(PropagatedFlows(cat, inputs, inputToOutput).value)))
    {
      computedOutputBom := None;
      computedInputBom := None;
      if |productsQty| == 0 {
        return Raises(ValueError);
      }
      var i := 0;
      while i < |productsQty|
        invariant 0 <= i <= |productsQty|
        invariant inputs == ApplyFixed(cat, old(inputs), productsQty[..i])
        invariant computedInputBom == None && computedOutputBom == None
      {
        ApplyFixedKeepsCoherency(cat, old(inputs), productsQty[..i], inputToInput);
        ApplyFixedKeepsCoherency(cat, old(inputs), productsQty[..i], inputToOutput);
        assert productsQty[..i + 1][..i] == productsQty[..i];
        inputs := SetQuantityOfProduct(cat, inputs, productsQty[i].0, productsQty[i].1);
        i := i + 1;
      }
      assert productsQty[..i] == productsQty;
      ApplyFixedKeepsCoherency(cat, old(inputs), productsQty, inputToInput);
      ApplyFixedKeepsCoherency(cat, old(inputs), productsQty, inputToOutput);
      r := UpdateFlow();
    }
  }

  // ---------------------------------------------------------------------------
  // Route
  // ---------------------------------------------------------------------------

  /** A `Process`: its name and its input and output BoMs. */
  datatype Process = Process(name: string, inputs: Bom, outputs: Bom)

  /** A `Route`: its id and its sequence of processes. */
  datatype Route = Route(routeId: string, processes: seq<Process>)

  /** Some product made by `earlier` is used by `later`. */
  predicate Feeds(earlier: Process, later: Process)
  {
    exists p :: p in Products(earlier.outputs) && p in Products(later.inputs)
  }

  /** `any(p in used for p in made)`. */
  function AnyUsed(made: seq<ProductRef>, used: seq<ProductRef>): (r: bool)
    ensures r <==> exists p :: p in made && p in used
  {
    if |made| == 0 then false
    else
      assert forall p :: p in made ==> p == made[0] || p in made[1..];
      made[0] in used || AnyUsed(made[1..], used)
  }

  /** `Route.ensure_consistency`: ValueError when two consecutive processes share no
      product, the earlier one's outputs against the later one's inputs. The first process
      is not checked against anything. */
  method EnsureConsistency(route: Route) returns (r: Outcome<()>)
    ensures r.Raises? <==> exists k :: 0 < k < |route.processes| && !Feeds(route.processes[k - 1], route.processes[k])
    ensures r.Raises? ==> r.error == ValueError
  {
    var outputProducts: Option<seq<ProductRef>> := None;
    var i := 0;
    while i < |route.processes|
      invariant 0 <= i <= |route.processes|
      invariant i == 0 <==> outputProducts.None?
      invariant i > 0 ==> outputProducts == Some(Products(route.processes[i - 1].outputs))
      invariant forall k :: 0 < k < i ==> Feeds(route.processes[k - 1], route.processes[k])
    {
      var process := route.processes[i];
      if outputProducts.Some? {
        var inputProducts := Products(process.inputs);
        if !AnyUsed(outputProducts.value, inputProducts) {
          return Raises(ValueError);
        }
      }
      outputProducts := Some(Products(process.outputs));
      i := i + 1;
    }
    r := Returns(());
  }

  /** `Route.ensure_consistency` as written: the first pass skips the input check, since
      `output_products` is still None, and then builds the list of output products by
      iterating the first process's output BoM. `BoM` defines neither `__iter__` nor
      `__getitem__`, so that iteration raises TypeError whatever the BoM holds. */
  function EnsureConsistencyAsWritten(route: Route): Outcome<()>
  {
    if |route.processes| == 0 then Returns(()) else Raises(TypeError)
  }

  /** As written, a non-empty route raises TypeError even when every process feeds the
      next, which is exactly when the intended check returns normally. The second
      precondition is not needed by the proof: it names the routes on which the two
      versions disagree. */
  lemma EnsureConsistencyAsWrittenFails(route: Route)
    requires |route.processes| > 0
    requires forall k :: 0 < k < |route.processes| ==> Feeds(route.processes[k - 1], route.processes[k])
    ensures EnsureConsistencyAsWritten(route) == Raises(TypeError)
  {
  }
}
