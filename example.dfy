/**
 * The battery of tests/unit_test/test_get_final_bom.py and tests/unit_test/utils_common.py:
 * four raw materials with a reference of 1 kg, an NMC 333 cell made of nickel, manganese
 * and cobalt, a second raw material also named "cell_type", and a battery made of 0.8 kg
 * of cells, 0.1 kg each of manganese and steel and 0.1 kg of the second raw material.
 * The tests file `Quantity` values under the products, the older variant's shape; here
 * the values are the `ProductInstance` objects the current `BoM` expects.
 */
module Example {
  import opened Outcomes
  import opened Algebra
  import opened Dicts
  import opened Boms
  import opened Flattening

  const Kg: UnitRef := 0
  const Nickel: ProductRef := 1
  const Manganese: ProductRef := 2
  const Cobalt: ProductRef := 3
  const Steel: ProductRef := 4
  const Cell: ProductRef := 5
  const LeafNoBom: ProductRef := 6
  const Battery: ProductRef := 7

  function Kilos(v: real): Quantity
  {
    Quantity(v, Kg)
  }

  /** `product: ProductInstance(product, Quantity(v, kg))`. */
  function Entry(p: ProductRef, v: real): (ProductRef, Instance)
  {
    (p, Instance(p, Kilos(v)))
  }

  function CellBom(): Bom
  {
    Bom([Entry(Nickel, 0.3), Entry(Manganese, 0.3), Entry(Cobalt, 0.4)])
  }

  function BatteryBom(): Bom
  {
    Bom([Entry(Cell, 0.8), Entry(Manganese, 0.1), Entry(Steel, 0.1), Entry(LeafNoBom, 0.1)])
  }

  function Shop(): Catalog
  {
    map[Nickel := Product("nickel", Kilos(1.0), None),
        Manganese := Product("manganese", Kilos(1.0), None),
        Cobalt := Product("cobalt", Kilos(1.0), None),
        Steel := Product("steel", Kilos(1.0), None),
        Cell := Product("cell_type", Kilos(1.0), Some(CellBom())),
        LeafNoBom := Product("cell_type", Kilos(1.0), None),
        Battery := Product("battery_type", Kilos(1.1), Some(BatteryBom()))]
  }

  ghost function ShopRank(): map<ProductRef, nat>
  {
    map[Nickel := 0, Manganese := 0, Cobalt := 0, Steel := 0, LeafNoBom := 0, Cell := 1, Battery := 2]
  }

  lemma CellBomIsDict()
    ensures UniqueKeys(CellBom().entries)
  {
    var ces := CellBom().entries;
    assert ces[1..] == [Entry(Manganese, 0.3), Entry(Cobalt, 0.4)];
    assert ces[1..][1..] == [Entry(Cobalt, 0.4)];
    var c2 := ces[1..][1..];
    assert c2[1..] == [];
  }

  lemma BatteryBomIsDict()
    ensures UniqueKeys(BatteryBom().entries)
  {
    var bes := BatteryBom().entries;
    assert bes[1..] == [Entry(Manganese, 0.1), Entry(Steel, 0.1), Entry(LeafNoBom, 0.1)];
    assert bes[1..][1..] == [Entry(Steel, 0.1), Entry(LeafNoBom, 0.1)];
    assert bes[1..][1..][1..] == [Entry(LeafNoBom, 0.1)];
    var b3 := bes[1..][1..][1..];
    assert b3[1..] == [];
  }

  lemma ShopIsValid()
    ensures ValidCatalog(Shop()) && Ranked(Shop(), ShopRank())
  {
    var cat := Shop();
    var ces, bes := CellBom().entries, BatteryBom().entries;
    CellBomIsDict();
    BatteryBomIsDict();
    assert ChildrenKnown(cat, ces) && ChildrenKnown(cat, bes);
    assert RankedBelow(ces, ShopRank(), 1) && RankedBelow(bes, ShopRank(), 2);
    forall p | p in cat
      ensures cat[p].bom.Some? ==> UniqueKeys(cat[p].bom.value.entries) && ChildrenKnown(cat, cat[p].bom.value.entries)
      ensures p in ShopRank() && (cat[p].bom.Some? ==> RankedBelow(cat[p].bom.value.entries, ShopRank(), ShopRank()[p]))
    {
      if p == Cell {
        assert cat[p].bom.value.entries == ces;
      } else if p == Battery {
        assert cat[p].bom.value.entries == bes;
      } else {
        assert cat[p].bom.None?;
      }
    }
  }

  /** What the flattening of the example uses of a catalog. */
  ghost predicate StocksRawMaterials(cat: Catalog, rank: map<ProductRef, nat>)
  {
    ValidCatalog(cat) && Ranked(cat, rank)
    && (forall p :: p in {Nickel, Manganese, Cobalt, Steel, LeafNoBom} ==>
          p in cat && cat[p].bom.None? && p in rank && rank[p] == 0)
  }

  ghost predicate StocksBattery(cat: Catalog, rank: map<ProductRef, nat>)
  {
    StocksRawMaterials(cat, rank)
    && Cell in cat && cat[Cell].bom == Some(CellBom()) && Cell in rank && rank[Cell] == 1
    && Battery in cat && cat[Battery].bom == Some(BatteryBom()) && Battery in rank && rank[Battery] == 2
  }

  lemma ShopStocksBattery()
    ensures StocksBattery(Shop(), ShopRank())
  {
    ShopIsValid();
  }

  /** Both composite products pass the construction check: 0.3 + 0.3 + 0.4 = 1.0 kg and
      0.8 + 0.1 + 0.1 + 0.1 = 1.1 kg. */
  lemma ShopProductsAccepted()
    ensures MakeProduct("cell_type", Kilos(1.0), Some(CellBom())) == Returns(Shop()[Cell])
    ensures MakeProduct("battery_type", Kilos(1.1), Some(BatteryBom())) == Returns(Shop()[Battery])
  {
    var cq := EntryQuantities(CellBom().entries);
    assert cq == [Kilos(0.3), Kilos(0.3), Kilos(0.4)];
    assert cq[..2][..1] == [Kilos(0.3)] && cq[..2][..1][..0] == [];
    assert ValueSum(cq[..2][..1]) == 0.3;
    assert ValueSum(cq[..2]) == 0.6;
    assert QuantityTotal(CellBom()) == 1.0;
    var bq := EntryQuantities(BatteryBom().entries);
    assert bq == [Kilos(0.8), Kilos(0.1), Kilos(0.1), Kilos(0.1)];
    assert bq[..3][..2][..1] == [Kilos(0.8)] && bq[..3][..2][..1][..0] == [];
    assert ValueSum(bq[..3][..2][..1]) == 0.8;
    assert ValueSum(bq[..3][..2]) == 0.9;
    assert ValueSum(bq[..3]) == 1.0;
    assert QuantityTotal(BatteryBom()) == 1.1;
  }

  // The cell: three raw materials, appended one by one.

  lemma CellFoldsNickel(cat: Catalog, rank: map<ProductRef, nat>)
    requires StocksRawMaterials(cat, rank)
    ensures FoldChildren(cat, [Entry(Nickel, 0.3)], rank, 1) == Returns(Bom([Entry(Nickel, 0.3)]))
  {
    var none: seq<(ProductRef, Instance)> := [];
    FoldNewRawMaterial(cat, none, Nickel, Entry(Nickel, 0.3).1, rank, 1, Bom(none));
    assert none + [Entry(Nickel, 0.3)] == [Entry(Nickel, 0.3)];
  }

  lemma CellFoldsManganese(cat: Catalog, rank: map<ProductRef, nat>)
    requires StocksRawMaterials(cat, rank)
    ensures FoldChildren(cat, [Entry(Nickel, 0.3), Entry(Manganese, 0.3)], rank, 1)
              == Returns(Bom([Entry(Nickel, 0.3), Entry(Manganese, 0.3)]))
  {
    var e0, e1 := Entry(Nickel, 0.3), Entry(Manganese, 0.3);
    CellFoldsNickel(cat, rank);
    FoldNewRawMaterial(cat, [e0], e1.0, e1.1, rank, 1, Bom([e0]));
    assert [e0] + [e1] == [e0, e1];
  }

  /** The NMC 333 cell flattens to its own BoM, whose entries are raw materials. */
  lemma CellFinalBom(cat: Catalog, rank: map<ProductRef, nat>)
    requires StocksBattery(cat, rank)
    ensures FinalBom(cat, Cell, rank) == Returns(CellBom())
  {
    var e0, e1, e2 := Entry(Nickel, 0.3), Entry(Manganese, 0.3), Entry(Cobalt, 0.4);
    CellFoldsManganese(cat, rank);
    var none: seq<(ProductRef, Instance)> := [];
    assert Keys([e0, e1]) == {Nickel, Manganese} by {
      assert [e0, e1][1..] == [e1];
      assert [e1][1..] == none;
    }
    FoldNewRawMaterial(cat, [e0, e1], e2.0, e2.1, rank, 1, Bom([e0, e1]));
    assert [e0, e1] + [e2] == [e0, e1, e2];
  }

  // The battery: the scaled cell, then manganese merged into the cell's, then two new
  // raw materials.

  function ScaledCell(): Bom
  {
    Bom([Entry(Nickel, 0.24), Entry(Manganese, 0.24), Entry(Cobalt, 0.32)])
  }

  function AfterManganese(): Bom
  {
    Bom([Entry(Nickel, 0.24), Entry(Manganese, 0.34), Entry(Cobalt, 0.32)])
  }

  function Flattened(): Bom
  {
    Bom([Entry(Nickel, 0.24), Entry(Manganese, 0.34), Entry(Cobalt, 0.32), Entry(Steel, 0.1), Entry(LeafNoBom, 0.1)])
  }

  lemma BatteryFoldsCell(cat: Catalog, rank: map<ProductRef, nat>)
    requires StocksBattery(cat, rank)
    ensures FoldChildren(cat, [Entry(Cell, 0.8)], rank, 2) == Returns(ScaledCell())
  {
    var none: seq<(ProductRef, Instance)> := [];
    var e := Entry(Cell, 0.8);
    CellFinalBom(cat, rank);
    var c := CellBom().entries;
    assert ScaleEntries(c, 0.8) == ScaledCell().entries;
    assert Contribution(cat, Cell, e.1, rank, 2) == Returns(ScaledCell());
    FoldSnoc(cat, none, Cell, e.1, rank, 2, Bom(none));
    assert none + [e] == [e];
    AddDisjointBoms(Bom(none), ScaledCell());
    assert none + ScaledCell().entries == ScaledCell().entries;
  }

  /** Manganese is already there: its 0.1 kg is added to the cell's 0.24 kg in place. */
  lemma ManganeseMerges()
    ensures AddBoms(ScaledCell(), Bom([Entry(Manganese, 0.1)])) == Returns(AfterManganese())
  {
    var a, b := ScaledCell().entries, [Entry(Manganese, 0.1)];
    var none: seq<(ProductRef, Instance)> := [];
    assert a[1..] == [Entry(Manganese, 0.24), Entry(Cobalt, 0.32)];
    assert a[1..][1..] == [Entry(Cobalt, 0.32)];
    var a2 := a[1..][1..];
    assert a2[1..] == none;
    assert b[1..] == none;
    assert Get(b, Cobalt) == None && Get(b, Nickel) == None && Get(b, Manganese) == Some(b[0].1);
    assert KeptFromLeft(none, b, AddInstances, QtyValue) == Returns(none);
    assert [(Cobalt, a2[0].1)] + none == a2;
    assert KeptFromLeft(a2, b, AddInstances, QtyValue) == Returns(a2);
    assert AddInstances(a[1].1, b[0].1) == Returns(Entry(Manganese, 0.34).1);
    assert [Entry(Manganese, 0.34)] + a2 == [Entry(Manganese, 0.34), Entry(Cobalt, 0.32)];
    assert KeptFromLeft(a[1..], b, AddInstances, QtyValue) == Returns([Entry(Manganese, 0.34), Entry(Cobalt, 0.32)]);
    assert [a[0]] + [Entry(Manganese, 0.34), Entry(Cobalt, 0.32)] == AfterManganese().entries;
    assert KeptFromLeft(a, b, AddInstances, QtyValue) == Returns(AfterManganese().entries);
    assert NewFromRight(b, a, QtyValue) == none;
    assert AfterManganese().entries + none == AfterManganese().entries;
  }

  lemma BatteryFoldsManganese(cat: Catalog, rank: map<ProductRef, nat>)
    requires StocksBattery(cat, rank)
    ensures FoldChildren(cat, [Entry(Cell, 0.8), Entry(Manganese, 0.1)], rank, 2) == Returns(AfterManganese())
  {
    var e0, e1 := Entry(Cell, 0.8), Entry(Manganese, 0.1);
    BatteryFoldsCell(cat, rank);
    FoldSnoc(cat, [e0], Manganese, e1.1, rank, 2, ScaledCell());
    assert [e0] + [e1] == [e0, e1];
    ManganeseMerges();
  }

  lemma BatteryFoldsSteel(cat: Catalog, rank: map<ProductRef, nat>)
    requires StocksBattery(cat, rank)
    ensures FoldChildren(cat, [Entry(Cell, 0.8), Entry(Manganese, 0.1), Entry(Steel, 0.1)], rank, 2)
              == Returns(Bom(AfterManganese().entries + [Entry(Steel, 0.1)]))
  {
    var e0, e1, e2 := Entry(Cell, 0.8), Entry(Manganese, 0.1), Entry(Steel, 0.1);
    BatteryFoldsManganese(cat, rank);
    var a := AfterManganese().entries;
    var a2 := a[1..][1..];
    assert a[1..] == [Entry(Manganese, 0.34), Entry(Cobalt, 0.32)] && a2 == [Entry(Cobalt, 0.32)];
    assert Keys(a2[1..]) == {};
    FoldNewRawMaterial(cat, [e0, e1], Steel, e2.1, rank, 2, AfterManganese());
    assert [e0, e1] + [e2] == [e0, e1, e2];
  }

  lemma SteelAppended()
    ensures var a := AfterManganese().entries + [Entry(Steel, 0.1)];
            Keys(a) == {Nickel, Manganese, Cobalt, Steel} && PositiveEntries(a)
  {
    var a := AfterManganese().entries + [Entry(Steel, 0.1)];
    var none: seq<(ProductRef, Instance)> := [];
    assert a[1..] == [Entry(Manganese, 0.34), Entry(Cobalt, 0.32), Entry(Steel, 0.1)];
    assert a[1..][1..] == [Entry(Cobalt, 0.32), Entry(Steel, 0.1)];
    var a2 := a[1..][1..];
    assert a2[1..] == [Entry(Steel, 0.1)];
    assert a2[1..][1..] == none;
    assert Keys(a2[1..]) == {Steel};
    assert Keys(a2) == {Cobalt, Steel};
    assert Keys(a[1..]) == {Manganese, Cobalt, Steel};
  }

  /** The battery flattens to 0.24 kg nickel, 0.34 kg manganese (0.8 * 0.3 from the cell
      plus 0.1 of its own), 0.32 kg cobalt, 0.1 kg steel and 0.1 kg of the second raw
      material, in that order. */
  lemma BatteryFinalBom(cat: Catalog, rank: map<ProductRef, nat>)
    requires StocksBattery(cat, rank)
    ensures FinalBom(cat, Battery, rank) == Returns(Flattened())
  {
    var e0, e1, e2, e3 := Entry(Cell, 0.8), Entry(Manganese, 0.1), Entry(Steel, 0.1), Entry(LeafNoBom, 0.1);
    BatteryFoldsSteel(cat, rank);
    var a := AfterManganese().entries + [Entry(Steel, 0.1)];
    SteelAppended();
    FoldNewRawMaterial(cat, [e0, e1, e2], LeafNoBom, e3.1, rank, 2, Bom(a));
    assert [e0, e1, e2] + [e3] == BatteryBom().entries;
    assert a + [e3] == Flattened().entries;
  }

  /** `ProductInstance(battery, 10 kg).get_final_bom()` is ten times the battery's. */
  lemma BatteryInstanceFinalBom(cat: Catalog, rank: map<ProductRef, nat>)
    requires StocksBattery(cat, rank)
    ensures InstanceFinalBom(cat, Instance(Battery, Kilos(10.0)), rank) ==
              Returns(Bom([Entry(Nickel, 2.4), Entry(Manganese, 3.4), Entry(Cobalt, 3.2),
                           Entry(Steel, 1.0), Entry(LeafNoBom, 1.0)]))
  {
    BatteryFinalBom(cat, rank);
    assert ScaleEntries(Flattened().entries, 10.0) ==
             [Entry(Nickel, 2.4), Entry(Manganese, 3.4), Entry(Cobalt, 3.2), Entry(Steel, 1.0), Entry(LeafNoBom, 1.0)];
  }

  /** The two flattenings on the catalog of the tests. */
  lemma ShopFinalBoms()
    ensures ValidCatalog(Shop()) && Ranked(Shop(), ShopRank())
    ensures FinalBom(Shop(), Battery, ShopRank()) == Returns(Flattened())
    ensures InstanceFinalBom(Shop(), Instance(Battery, Kilos(10.0)), ShopRank()) ==
              Returns(Bom([Entry(Nickel, 2.4), Entry(Manganese, 3.4), Entry(Cobalt, 3.2),
                           Entry(Steel, 1.0), Entry(LeafNoBom, 1.0)]))
  {
    ShopStocksBattery();
    BatteryFinalBom(Shop(), ShopRank());
    BatteryInstanceFinalBom(Shop(), ShopRank());
  }

  // A catalog outside the tests: a subassembly of 2 kg made of 2 kg of nickel, used at
  // 1 kg in an assembly of 1 kg. Both products pass the construction check.

  const Subassembly: ProductRef := 8
  const Assembly: ProductRef := 9

  function TwoKiloShop(): Catalog
  {
    map[Nickel := Product("nickel", Kilos(1.0), None),
        Subassembly := Product("subassembly", Kilos(2.0), Some(Bom([Entry(Nickel, 2.0)]))),
        Assembly := Product("assembly", Kilos(1.0), Some(Bom([Entry(Subassembly, 1.0)])))]
  }

  ghost function TwoKiloRank(): map<ProductRef, nat>
  {
    map[Nickel := 0, Subassembly := 1, Assembly := 2]
  }

  lemma TwoKiloShopIsValid()
    ensures ValidCatalog(TwoKiloShop()) && Ranked(TwoKiloShop(), TwoKiloRank())
    ensures AcceptedCatalog(TwoKiloShop()) && PositiveCatalog(TwoKiloShop())
  {
    var cat, rank := TwoKiloShop(), TwoKiloRank();
    var none: seq<(ProductRef, Instance)> := [];
    var ni, sub := [Entry(Nickel, 2.0)], [Entry(Subassembly, 1.0)];
    assert ni[1..] == none && sub[1..] == none;
    TotalIsAmountSum(ni);
    TotalIsAmountSum(sub);
    forall p | p in cat
      ensures cat[p].bom.Some? ==> UniqueKeys(cat[p].bom.value.entries) && ChildrenKnown(cat, cat[p].bom.value.entries)
      ensures p in rank && (cat[p].bom.Some? ==> RankedBelow(cat[p].bom.value.entries, rank, rank[p]))
      ensures MakeProduct(cat[p].name, cat[p].reference, cat[p].bom).Returns?
      ensures cat[p].bom.Some? ==> PositiveEntries(cat[p].bom.value.entries)
    {
      if p == Subassembly {
        assert cat[p].bom.value.entries == ni;
      } else if p == Assembly {
        assert cat[p].bom.value.entries == sub;
      } else {
        assert cat[p].bom.None?;
      }
    }
  }

  /** The subassembly flattens to its own BoM. */
  lemma SubassemblyFinalBom()
    ensures ValidCatalog(TwoKiloShop()) && Ranked(TwoKiloShop(), TwoKiloRank())
    ensures FinalBom(TwoKiloShop(), Subassembly, TwoKiloRank()) == Returns(Bom([Entry(Nickel, 2.0)]))
  {
    TwoKiloShopIsValid();
    var none: seq<(ProductRef, Instance)> := [];
    var ni := [Entry(Nickel, 2.0)];
    assert ni[1..] == none;
    AddDisjointBoms(Bom(none), Bom(ni));
    assert none + ni == ni;
    assert ni[..0] == none;
    assert FoldChildren(TwoKiloShop(), ni, TwoKiloRank(), 1) == Returns(Bom(ni));
  }

  /** The assembly flattens to the subassembly's BoM scaled by the entry's 1 kg. */
  lemma AssemblyFinalBom()
    ensures ValidCatalog(TwoKiloShop()) && Ranked(TwoKiloShop(), TwoKiloRank())
    ensures FinalBom(TwoKiloShop(), Assembly, TwoKiloRank()) == Returns(Bom([Entry(Nickel, 2.0)]))
  {
    SubassemblyFinalBom();
    var none: seq<(ProductRef, Instance)> := [];
    var ni, sub := [Entry(Nickel, 2.0)], [Entry(Subassembly, 1.0)];
    assert ni[1..] == none;
    AddDisjointBoms(Bom(none), Bom(ni));
    assert none + ni == ni;
    assert sub[..0] == none;
    assert ScaleEntries(ni, 1.0) == ni;
    assert Contribution(TwoKiloShop(), Subassembly, sub[0].1, TwoKiloRank(), 2) == Returns(Bom(ni));
  }

  /** `get_final_bom` scales the subassembly's flattened BoM by the entry's 1 kg, not by
      1 kg out of its 2 kg reference: the 1 kg assembly flattens to 2 kg of nickel. */
  lemma AbsoluteScalingInflates()
    ensures ValidCatalog(TwoKiloShop()) && Ranked(TwoKiloShop(), TwoKiloRank())
    ensures AcceptedCatalog(TwoKiloShop()) && PositiveCatalog(TwoKiloShop())
    ensures FinalBom(TwoKiloShop(), Assembly, TwoKiloRank()) == Returns(Bom([Entry(Nickel, 2.0)]))
    ensures QuantityTotal(Bom([Entry(Nickel, 2.0)])) == 2.0 != TwoKiloShop()[Assembly].reference.value
  {
    TwoKiloShopIsValid();
    AssemblyFinalBom();
    var none: seq<(ProductRef, Instance)> := [];
    var ni := [Entry(Nickel, 2.0)];
    assert ni[1..] == none;
    TotalIsAmountSum(ni);
  }
}
