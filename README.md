# batterway core, modelled in Dafny

batterway describes battery products as bills of materials (BoMs) and recycling processes as ratio tables over their inputs. This project models four parts of it:

- **The algebra of the current data model** (`batterway/datamodel/generic/product.py`):
  - unit-checked arithmetic and comparison on `Quantity`;
  - product-checked arithmetic on `ProductInstance`;
  - `BoM` construction, addition with `collections.Counter` semantics, scaling and membership;
  - the `Product` constructor's check that a BoM adds up to the reference quantity;
  - the recursive `get_final_bom`, which flattens a product tree into raw-material quantities.
- **The older variant** (`batterway/datamodel/Generic/Product.py`):
  - BoMs map products to bare `Quantity` values;
  - `quantity_total` is the `sum()` of those quantities;
  - a raw material flattens to `None`;
  - `Flow` values have their own operators.
- **The recycling process** (`batterway/datamodel/generic/process.py`):
  - the coherency gate of `RecyclingProcess`;
  - `_update_flow`, which propagates input quantities through the input-to-input and input-to-output ratio tables;
  - `update_fixed_input_lci`;
  - `Route.ensure_consistency`, which checks each pair of adjacent processes.
- **The worked battery example** of `tests/unit_test/test_get_final_bom.py`. A second, small catalogue shows where flattening does not conserve mass.

Modelling choices:

- **Identity.** Units and products define no `__eq__` or `__hash__`, so Python compares them by identity. The model represents them as numeric references (`UnitRef` and `ProductRef`), and a product's data lives in a catalogue `map<ProductRef, Product>`.
- **Dictionaries.** A Python dict keeps insertion order, and the order is visible in the source's results. It is therefore an association list `seq<(ProductRef, V)>` with unique keys; `Dicts.Put` keeps the position of a key that is already present.
- **Floats.** Floats are `real`.
- **Exceptions.** An exception becomes `Outcome.Raises(error)`. A Python `None` result becomes `Option.None`.
- **Truthy results.** `_compatibility_check` returns a `TypeError` object instead of raising it. The object is truthy, so the operator then returns `None`; the model reproduces this (`Algebra.QuantityOp`).
- **Termination.** The source never checks for cycles, so flattening has a precondition: a ghost rank that strictly decreases from a product to its composite children.
- **Imperative parts.** These are methods whose contracts tie them to specification functions:
  - `Flattening.GetFinalBom` and `LegacyProducts.GetLegacyFinalBom`: a loop plus recursion;
  - `Processes.Propagate`: fills a dict in place;
  - the class `Processes.RecyclingProcess`: its fields are reassigned;
  - `Processes.EnsureConsistency`: a loop carrying the previous process's outputs.

Modules, one file each:

- `Outcomes` (outcomes.dfy)
- `Algebra` (algebra.dfy)
- `Dicts` (dicts.dfy)
- `Boms` (boms.dfy)
- `Flattening` (flatten.dfy)
- `Example` (example.dfy)
- `LegacyProducts` (legacy.dfy)
- `Processes` (process.dfy)

## Model

| member | source | states |
|---|---|---|
| Algebra.CombineQuantities | batterway/datamodel/generic/product.py:46-73 | two Quantities combine iff they share the unit object (else ValueError); the result has the left unit and the value `a op b` |
| Algebra.QuantityOp | batterway/datamodel/generic/product.py:26-73 | `+`, `-`, `*` raise ValueError exactly on a Quantity of another unit object; an operand that is neither a number nor a Quantity yields `None` (the returned TypeError object is truthy but no branch matches); otherwise the left unit with the value combined with the number or the other value |
| Algebra.QuantityGt | batterway/datamodel/generic/product.py:75-81 | `>` raises ValueError exactly on a unit mismatch, is `None` on a non-number, and otherwise is true iff the value exceeds the operand's magnitude |
| Algebra.QuantityEq | batterway/datamodel/generic/product.py:39-44 | equal iff same value and same unit object, or a number equal to the value; anything else is unequal |
| Algebra.QuantityRAdd | batterway/datamodel/generic/product.py:54-57 | `0 + q`, a zero Quantity of the same unit, or any other object equal to 0 (such as `Fraction(0)`) returns `q` itself; any other non-number yields `None`; otherwise `__radd__` is `__add__`; raises exactly on a unit mismatch |
| Algebra.PlusMinusRoundTrip | batterway/datamodel/generic/product.py:46-65 | `(q + x) - x == q` for every compatible operand, on the model's exact reals; with floats it can fail by rounding, which is not modelled |
| Algebra.GreaterMeansPositiveDifference | batterway/datamodel/generic/product.py:59-81 | `q > x` fails, or is `None`, exactly when `q - x` does; when it is defined it is true iff `(q - x).value > 0` |
| Algebra.SumOfQuantities | batterway/datamodel/generic/product.py:54-57 | `sum()` of Quantities from 0 is 0 for none, the Quantity of the plain value sum when all share the first unit, and a ValueError when some unit differs |
| Algebra.InstanceOp | batterway/datamodel/generic/product.py:171-228 | ProductInstance `+`, `-`, `*` raise ValueError iff the other instance has another product (or its quantity another unit); a non-numeric operand gives `None`; the result keeps the product and the unit, and its value combines with the number, the Quantity's value or the other quantity |
| Algebra.InstanceGt | batterway/datamodel/generic/product.py:230-238 | the comparison raises ValueError, and only ValueError, on another product or unit; it is `None` on an unsupported operand, and otherwise compares the quantity value with the operand's magnitude |
| Algebra.InstanceRAdd | batterway/datamodel/generic/product.py:199-208 | `0 + i`, a zero Quantity, a zero-quantity instance of the same product, or any other object equal to 0 returns `i`; any other non-number yields `None`; otherwise `__add__`; another product raises ValueError |
| Algebra.AddInstances | batterway/datamodel/generic/product.py:189-197 | adding two instances raises iff the products or units differ; otherwise the same product with the value sum |
| Algebra.ScaleInstance | batterway/datamodel/generic/product.py:220-228 | `i * x` never raises for a number; it keeps product and unit and multiplies the value |
| Algebra.InstanceEqAsWritten | batterway/datamodel/generic/product.py:184-187 | `__eq__` as written: raises AttributeError on every Quantity and is false for everything else |
| Algebra.InstanceEq | batterway/datamodel/generic/product.py:184-187 | intended equality: true exactly for an instance with the same product and quantity |
| Algebra.InstanceEqAsWrittenIsNeverReflexive | batterway/datamodel/generic/product.py:184-187 | as written, an instance is not equal to itself (while the intended one is), and comparing with a Quantity raises |
| Dicts.Get | batterway/datamodel/generic/process.py:72 | a lookup finds a value iff the key is present |
| Dicts.Put | batterway/datamodel/generic/process.py:67-73 | item assignment adds the key, keeps keys unique and changes only that key's value |
| Dicts.KeptFromLeftSpec | batterway/datamodel/generic/product.py:135 | the first phase of Counter `+` (left keys, with shared values summed) raises iff a shared sum raises; it keeps exactly the left keys whose combined amount is positive |
| Dicts.NewFromRightSpec | batterway/datamodel/generic/product.py:135 | the second phase keeps exactly the right-only keys with a positive amount, unchanged |
| Dicts.CounterAddSpec | batterway/datamodel/generic/product.py:135 | Counter `+` raises iff summing some shared key raises; otherwise the keys are exactly those of either side whose combined amount is positive, each with the sum, or the one-sided value |
| Dicts.CounterAddDisjoint | batterway/datamodel/generic/product.py:135 | with disjoint keys and positive amounts, Counter `+` is concatenation in insertion order |
| Dicts.KeptDisjoint | batterway/datamodel/generic/product.py:135 | with disjoint keys, the left phase returns the left dict unchanged |
| Dicts.NewDisjoint | batterway/datamodel/generic/product.py:135 | with disjoint keys and positive amounts, the right phase returns the right dict unchanged |
| Dicts.CounterAddTotal | batterway/datamodel/generic/product.py:135 | with positive amounts that add under `+`, Counter addition keeps the total: the result's amounts add up to those of both operands |
| Dicts.KeptTotal | batterway/datamodel/generic/product.py:135 | the first phase keeps the left amounts plus the right amounts under shared keys |
| Dicts.NewTotal | batterway/datamodel/generic/product.py:135 | the second phase keeps exactly the right amounts under keys the left operand lacks |
| Dicts.SharedAmountIsInside | batterway/datamodel/generic/product.py:135 | looking the left keys up in the right dict sums the right amounts filed under those keys, whatever the order |
| Boms.EntryQuantities | batterway/datamodel/generic/product.py:123 | one quantity per BoM entry, the entry's `qty`, in order |
| Boms.Products | batterway/datamodel/generic/product.py:122 | `BoM.products` lists each value's product, in order |
| Boms.MakeProduct | batterway/datamodel/generic/product.py:90-99 | construction raises ValueError iff a BoM is given whose value total differs from the reference value (units not compared); a raw material is always accepted |
| Boms.EmptyBomNeedsZeroReference | batterway/datamodel/generic/product.py:96-99 | an empty BoM is accepted exactly for a reference of value 0 |
| Boms.AddBomsSpec | batterway/datamodel/generic/product.py:128-136 | BoM `+` raises ValueError iff a shared key holds instances of different products or units; otherwise the keys are those of either side with positive combined amount, each amount is the positive part of the sum, and each value is the summed or one-sided instance |
| Boms.AddedBomValues | batterway/datamodel/generic/product.py:135 | on success, the keys and amounts of a BoM sum as above |
| Boms.AddedBomInstances | batterway/datamodel/generic/product.py:135 | on success, keys stay unique and each value is the summed instance or the one-sided one |
| Boms.AddPositiveBoms | batterway/datamodel/generic/product.py:128-136 | adding BoMs of positive amounts drops nothing: all keys survive and amounts add |
| Boms.AddDisjointBoms | batterway/datamodel/generic/product.py:128-136 | adding positive BoMs with disjoint keys appends the right one to the left one |
| Boms.AddBomsTotal | batterway/datamodel/generic/product.py:128-136 | adding positive BoMs adds their quantity totals |
| Boms.TotalIsAmountSum | batterway/datamodel/generic/product.py:123 | `quantity_total` is the sum of the values' quantity values |
| Boms.PositiveAmount | batterway/datamodel/generic/product.py:135 | every key of a positive BoM has a positive amount |
| Boms.ScaleEntries | batterway/datamodel/generic/product.py:147 | the comprehension scales each value and keeps keys and order |
| Boms.ScaleBom | batterway/datamodel/generic/product.py:138-148 | `BoM * x` raises TypeError iff `x` is neither a number nor a Quantity; otherwise the same keys in the same order, each instance scaled by the number or the Quantity's value, the Quantity's unit ignored |
| Boms.ScaleEntriesAmounts | batterway/datamodel/generic/product.py:147 | scaling keeps the key set and key uniqueness, multiplies every amount by the factor, and keeps positivity for a positive factor |
| Boms.ScaleEntriesTotal | batterway/datamodel/generic/product.py:147 | scaling every value by a factor scales the quantity total by it |
| Boms.Contains | batterway/datamodel/generic/product.py:150-156 | `in` with a name matches some product's name; with a Product or ProductInstance it matches by product identity; any other item is not contained |
| Boms.InstanceBom | batterway/datamodel/generic/product.py:162-166 | `ProductInstance.bom` is the product's BoM scaled by the instance quantity, or empty for a raw material |
| Flattening.FoldNewRawMaterial | batterway/datamodel/generic/product.py:110-111 | a positive raw-material child not yet in the accumulator is appended as is |
| Flattening.FoldRaisesOnward | batterway/datamodel/generic/product.py:108-113 | once an iteration raises, the whole flattening raises that error |
| Flattening.GetFinalBom | batterway/datamodel/generic/product.py:105-114 | the loop with recursion computes exactly the specification `FinalBom` |
| Flattening.InstanceFinalBom | batterway/datamodel/generic/product.py:168-169 | an instance flattens to its product's final BoM scaled by its quantity, raising iff that raises |
| Flattening.FinalBomIsRaw | batterway/datamodel/generic/product.py:105-114 | a raw material flattens to exactly `{self: ProductInstance(self, reference)}`; any successful final BoM holds only raw materials, with unique keys |
| Flattening.FoldIsRaw | batterway/datamodel/generic/product.py:108-113 | the loop accumulator holds only raw materials, each keyed by its own product |
| Flattening.FinalBomAmounts | batterway/datamodel/generic/product.py:105-114 | in a catalogue of positive BoMs, the amount of each raw material is the sum over all paths of the products of the quantities along the path (diamonds summed) |
| Flattening.FoldAmounts | batterway/datamodel/generic/product.py:108-113 | the loop's amounts are the per-child path sums |
| Flattening.ContributionAmounts | batterway/datamodel/generic/product.py:110-113 | a child contributes its own amount if raw, or its scaled final BoM if composite |
| Flattening.FinalBomTotal | batterway/datamodel/generic/product.py:105-114 | when every product passed the construction check, all BoM values are positive, and every subassembly used in a BoM has reference value 1, the flattened BoM's quantity total is the product's reference value (mass conserved) |
| Flattening.FoldTotal | batterway/datamodel/generic/product.py:108-113 | under the same hypotheses, the loop's total is the total of the entries visited |
| Flattening.ContributionTotal | batterway/datamodel/generic/product.py:110-113 | a raw child, or a subassembly of reference value 1, contributes a total equal to the entry's value |
| Flattening.FinalBomSucceeds | batterway/datamodel/generic/product.py:105-114 | when every quantity is in one unit object, flattening never raises and every value is in that unit, keyed by its product |
| Flattening.FoldSucceeds | batterway/datamodel/generic/product.py:108-113 | the loop never raises under one unit |
| Example.CellBomIsDict | tests/unit_test/test_get_final_bom.py:11 | the cell's BoM has unique keys |
| Example.BatteryBomIsDict | tests/unit_test/test_get_final_bom.py:22-29 | the battery's BoM has unique keys |
| Example.ShopIsValid | tests/unit_test/test_get_final_bom.py:7-30 | the catalogue of the test is well formed and ranked |
| Example.ShopStocksBattery | tests/unit_test/test_get_final_bom.py:7-30 | the test's catalogue meets the precondition of the example lemmas |
| Example.ShopProductsAccepted | tests/unit_test/test_get_final_bom.py:7-30 | the cell (1.0 kg) and battery (1.1 kg) pass the BoM-total check |
| Example.CellFoldsNickel | tests/unit_test/test_get_final_bom.py:11 | first loop step of the cell: nickel appended |
| Example.CellFoldsManganese | tests/unit_test/test_get_final_bom.py:11 | second loop step of the cell: manganese appended |
| Example.CellFinalBom | tests/unit_test/test_get_final_bom.py:11 | the cell flattens to its own BoM of nickel, manganese and cobalt |
| Example.BatteryFoldsCell | tests/unit_test/test_get_final_bom.py:24 | the cell contributes 0.24 nickel, 0.24 manganese, 0.32 cobalt |
| Example.ManganeseMerges | tests/unit_test/test_get_final_bom.py:25 | adding 0.1 manganese to 0.24 gives 0.34 in place |
| Example.BatteryFoldsManganese | tests/unit_test/test_get_final_bom.py:25 | the loop after manganese holds the merged amount |
| Example.BatteryFoldsSteel | tests/unit_test/test_get_final_bom.py:26 | steel is appended |
| Example.SteelAppended | tests/unit_test/test_get_final_bom.py:26 | the steel BoM adds as concatenation |
| Example.BatteryFinalBom | tests/unit_test/test_get_final_bom.py:36-51 | the battery flattens to nickel 0.24, manganese 0.34, cobalt 0.32, steel 0.1 and the 0.1 kg raw "cell_type" |
| Example.BatteryInstanceFinalBom | tests/unit_test/test_get_final_bom.py:54-69 | 10 kg of battery flatten to nickel 2.4, manganese 3.4, cobalt 3.2, steel 1.0 and 1.0 of the raw "cell_type" |
| Example.ShopFinalBoms | tests/unit_test/test_get_final_bom.py:36-69 | both expectations hold on the concrete catalogue of the test |
| Example.TwoKiloShopIsValid | batterway/datamodel/generic/product.py:90-99 | a 2 kg subassembly of 2 kg of nickel and a 1 kg assembly of 1 kg of it are well formed, positive, and pass the construction check |
| Example.SubassemblyFinalBom | batterway/datamodel/generic/product.py:105-114 | the subassembly flattens to its own 2 kg of nickel |
| Example.AbsoluteScalingInflates | batterway/datamodel/generic/product.py:113 | as written, the 1 kg assembly flattens to 2 kg of nickel, so its quantity total is not its reference value |
| LegacyProducts.LegacyQuantityEq | batterway/datamodel/Generic/Product.py:39-42 | equality holds only against a Quantity of the same value and unit object; a bare number is never equal |
| LegacyProducts.Values | batterway/datamodel/Generic/Product.py:121 | the BoM's values in order |
| LegacyProducts.MakeLegacyBom | batterway/datamodel/Generic/Product.py:118-121 | construction raises ValueError iff two values have different unit objects; `quantity_total` is int 0 for an empty BoM and otherwise the Quantity of the value sum in the first unit |
| LegacyProducts.LegacyAddSpec | batterway/datamodel/Generic/Product.py:126-134 | `+` raises iff a shared key has values of different units or the combined dict keeps values of different units, which the new BoM's `sum()` rejects; every raise is ValueError; when both sides are in one unit it succeeds, stays in that unit, keeps exactly the keys with a positive combined amount and sums the amounts |
| LegacyProducts.LegacyAddInUnit | batterway/datamodel/Generic/Product.py:126-134 | the one-unit case of the addition above |
| LegacyProducts.SumInUnit | batterway/datamodel/Generic/Product.py:133 | summed values of one unit stay in that unit |
| LegacyProducts.KeyInUnit | batterway/datamodel/Generic/Product.py:118-121 | in a one-unit BoM every looked-up value has that unit |
| LegacyProducts.TimesValue | batterway/datamodel/Generic/Product.py:65-71 | `q * x` scales the value by the number or the other value, in `q`'s unit |
| LegacyProducts.LegacyScale | batterway/datamodel/Generic/Product.py:136-146 | `BoM * x` raises TypeError on an operand that is neither a number nor a Quantity; with a number or a Quantity every raise is ValueError, on a Quantity of another unit or a BoM mixing units; otherwise it scales every value, keeping keys and order |
| LegacyProducts.ScaleValues | batterway/datamodel/Generic/Product.py:145 | the comprehension scales each value, keeping keys and order |
| LegacyProducts.MakeLegacyProduct | batterway/datamodel/Generic/Product.py:88-97 | construction raises ValueError iff a BoM is given whose total is not exactly the reference Quantity, in value and unit |
| LegacyProducts.LegacyProductCheck | batterway/datamodel/Generic/Product.py:88-97 | a product is accepted iff its BoM is non-empty, in the reference unit and adds up to the reference value; an empty BoM is always rejected |
| LegacyProducts.LegacyFinalBom | batterway/datamodel/Generic/Product.py:103-112 | a raw material flattens to `None`, and only a raw material does |
| LegacyProducts.LegacyFoldRaisesOnward | batterway/datamodel/Generic/Product.py:106-111 | once an iteration raises, the whole flattening raises that error |
| LegacyProducts.GetLegacyFinalBom | batterway/datamodel/Generic/Product.py:103-112 | the loop with recursion computes exactly the specification `LegacyFinalBom` |
| LegacyProducts.LegacyFinalBomSucceeds | batterway/datamodel/Generic/Product.py:103-112 | when every quantity is in one unit, a composite product flattens without raising to a BoM of raw materials in that unit, with unique keys |
| LegacyProducts.LegacyFoldSucceeds | batterway/datamodel/Generic/Product.py:106-112 | the loop never raises under one unit |
| LegacyProducts.LegacyContributionSucceeds | batterway/datamodel/Generic/Product.py:108-111 | a child's contribution never raises under one unit |
| LegacyProducts.LegacyAddAcrossUnits | batterway/datamodel/Generic/Product.py:126-134 | adding two positive BoMs with disjoint keys in two different unit objects raises ValueError: the sum has both units, and the new BoM's `quantity_total` (line 121) cannot add them |
| LegacyProducts.LegacyAddAmounts | batterway/datamodel/Generic/Product.py:133 | adding two positive BoMs in one unit drops no key, keeps every value positive and adds the amounts |
| LegacyProducts.LegacyFinalBomAmounts | batterway/datamodel/Generic/Product.py:103-112 | in a catalogue in one unit with positive BoMs, a composite product flattens to a positive BoM whose amount of each raw material is the sum over all paths to it of the products of the values along the path (diamonds summed) |
| LegacyProducts.LegacyFoldAmounts | batterway/datamodel/Generic/Product.py:106-112 | the loop's amounts are the sums of the children's path amounts, and stay positive |
| LegacyProducts.LegacyContributionAmounts | batterway/datamodel/Generic/Product.py:108-111 | a raw child contributes its own value; a composite child contributes its path amounts times its value |
| LegacyProducts.LegacyCompositeAmounts | batterway/datamodel/Generic/Product.py:110-111 | `product.get_final_bom() * qty` holds the child's path amounts times the entry's value, all positive |
| LegacyProducts.ScaledAmounts | batterway/datamodel/Generic/Product.py:145 | scaling every value by `m` scales every amount by `m`, and keeps positivity for a positive `m` |
| LegacyProducts.SameKeys | batterway/datamodel/Generic/Product.py:145 | two BoMs with the same keys in the same order agree on key sets and uniqueness |
| LegacyProducts.FlowOp | batterway/datamodel/Generic/Product.py:194-215 | Flow `+` and `*` raise TypeError on a non-number, non-Flow operand; they raise ValueError on another product or unit; a number never raises; the result keeps product and unit |
| Processes.AllInfluencersIn | batterway/datamodel/generic/process.py:53-60 | the `any(...)` scan is false exactly when some influencing product of the table is not in the inputs |
| Processes.EnsureCoherency | batterway/datamodel/generic/process.py:53-60 | raises ValueError iff either ratio table names an influencing product absent from the inputs; otherwise returns True |
| Processes.AddRatio | batterway/datamodel/generic/process.py:71-73 | `acc += inputs[infl].qty * ratio` adds `value × ratio` to the accumulator, keeping its product and unit |
| Processes.UntouchedTotal | batterway/datamodel/generic/process.py:65-73 | a product no applicable entry names has ratio total 0 |
| Processes.LastEntry | batterway/datamodel/generic/process.py:65-73 | the touched products and the missing-influencer condition decompose over the last table entry |
| Processes.PropagatedFlowsSpec | batterway/datamodel/generic/process.py:62-73 | propagation raises KeyError exactly when an influencing product is in the inputs only as a value, not as a key; otherwise it holds exactly the touched influenced products, each with Σ `inputs[infl] × ratio` over the applicable entries, in its reference unit |
| Processes.PropagateEntrySpec | batterway/datamodel/generic/process.py:65-73 | one table entry is skipped, or raises, or updates one key |
| Processes.SkippedEntry | batterway/datamodel/generic/process.py:66 | an entry whose influencer is not in the inputs changes nothing |
| Processes.CountedEntry | batterway/datamodel/generic/process.py:66-73 | an applicable entry keeps the closed form with its share added |
| Processes.AddShare | batterway/datamodel/generic/process.py:71-73 | adding the share updates the influenced product's total and nothing else |
| Processes.StartAtZero | batterway/datamodel/generic/process.py:67-70 | an influenced product first seen starts at 0 in its reference unit |
| Processes.KeyedInputsNeverMissing | batterway/datamodel/generic/process.py:66-72 | when every input is keyed by its own product, propagation never raises |
| Processes.PropagatedRaisesOnward | batterway/datamodel/generic/process.py:65-73 | once an entry raises, the whole propagation raises that error |
| Processes.Propagate | batterway/datamodel/generic/process.py:63-73 | the in-place loop computes exactly `PropagatedFlows` (the output table uses the same loop, lines 79-88) |
| Processes.SetQuantityOfProduct | batterway/datamodel/generic/process.py:105 | overwriting a fixed quantity keeps the entries and products; entries whose product has the name get the value in their own unit, others are unchanged |
| Processes.ApplyFixed | batterway/datamodel/generic/process.py:104-105 | applying the fixed map keeps the entries and their products |
| Processes.ApplyFixedSpec | batterway/datamodel/generic/process.py:104-105 | after the loop, keys, products and units are unchanged; each entry's value is the last fixed quantity given for its product's name, or the original |
| Processes.ApplyFixedKeepsCoherency | batterway/datamodel/generic/process.py:98-106 | fixing quantities keeps ratio tables coherent, since the products are unchanged |
| Processes.FixedInputsAsWrittenAlwaysFail | batterway/datamodel/generic/process.py:104-105 | as written, any non-empty fixed map raises AttributeError |
| Processes.RecyclingProcess.constructor | batterway/datamodel/generic/process.py:38-51 | stores inputs, outputs and tables; both computed BoMs start as `None` |
| Processes.RecyclingProcess.Create | batterway/datamodel/generic/process.py:38-60 | construction raises ValueError iff either table names an influencing product absent from the inputs; otherwise a fresh, valid process holding the given name, catalogue, inputs, outputs and tables, with both computed BoMs `None` |
| Processes.RecyclingProcess.UpdateFlow | batterway/datamodel/generic/process.py:62-96 | raises KeyError iff either propagation raises, leaving the results as they were; otherwise sets the computed input and output BoMs to the two propagated flows, which are independent of each other; inputs unchanged |
| Processes.RecyclingProcess.UpdateFixedInputLci | batterway/datamodel/generic/process.py:98-106 | clears both results first; an empty map raises ValueError and leaves them `None`; otherwise overwrites the fixed inputs and then behaves as `_update_flow` on the new inputs |
| Processes.AnyUsed | batterway/datamodel/generic/process.py:125 | true iff some product made by the earlier process is used by the later one |
| Processes.EnsureConsistency | batterway/datamodel/generic/process.py:119-129 | raises ValueError iff some adjacent pair of processes has no output of the earlier among the inputs of the later; the first process is not checked |
| Processes.EnsureConsistencyAsWrittenFails | batterway/datamodel/generic/process.py:119-129 | as written, every non-empty route raises TypeError, even one in which each process feeds the next |

## Left out

- I/O, ingestion and wiring are not part of this model: `batterway/datamodel/parser/`, `main.py` and `batterway/model/`.
- The chemistry of `ChemicalCompound` is not modelled. It goes through the chempy library, which is foreign code.
- IRIs (`UnitIRI`, `ProductIRI`, `URIRef`) are not modelled: units and products are identities with a name.
- Floats are `real`. Rounding, exact-float equality and `__str__` rendering (`round(..., 5)`) are not modelled.
- Error messages are not modelled; an exception is modelled by its class only.
- The non-`BoM` operand of `BoM.__add__` (TypeError, product.py:130-132) is not modelled, because Dafny's types already exclude it.
- `Flattening.FinalBom`: the source never checks for cycles, so the model requires a rank that decreases along composite children. A cyclic catalogue would recurse until Python's stack overflows. The rank bounds only the BoM keys. In Python, `ProductInstance.__init__` (product.py:165-166) also rebuilds the BoM of each value's product whenever an instance is made, at product.py:106 and on every `qty * self.qty`, so Python also needs the value products to be acyclic. The model does not build that eager BoM during flattening.
- `Boms.InstanceBom`: the source computes `ProductInstance.bom` eagerly in the constructor. For a raw material it is the plain dict `{}`, not a `BoM`; the model returns an empty BoM.
- `Processes.RecyclingProcess.UpdateFlow`: the write of a `.quantity` attribute onto each influenced `Product` (process.py:74-77, 90-93) is not modelled. That value is never read, and it wraps a ProductInstance inside a Quantity.
- `Processes.PropagatedFlowsSpec`: a ratio table is a list of pairs. A Python dict cannot hold the same key twice, and the model allows it; the sum then simply counts both entries.
- `Processes.SetQuantityOfProduct`: `BoM` has no `set_quantity_of_product`. The model states the evidently intended operation: overwrite the value of each entry whose product has that name. See Findings.
- `Processes.EnsureConsistency`: `[f.product for f in process.outputs]` iterates a `BoM`, which defines neither `__iter__` nor `__getitem__`. The model states the evidently intended check over the products of the BoM values. See Findings.
- `RecyclingRoute.ensure_consistency`, `ProcessLCI` and the older `ProductInstance` (Generic/Product.py:150-162) are not part of this model.
  - `RecyclingRoute.ensure_consistency` reads a nonexistent `ref_input`.
  - `ProcessLCI.__str__` reads nonexistent attributes.
  - The older `ProductInstance` is not used by the older BoM operations.
- No conservation law between the inputs and computed outputs of a recycling process is stated; the source promises none. For flattening, see `Flattening.FinalBomTotal` and Findings.
- The test's catalogue in `Example` uses `ProductInstance` values. `tests/unit_test/test_get_final_bom.py:11, 22-29` builds current-variant BoMs from bare `Quantity` values, which is the older variant's shape. Those fixtures would raise AttributeError in `BoM.__init__` (`x.qty`), so the model follows the code. The expected numbers are the same either way.

## Findings

| source | as written | input that shows it | evidently intended | confidence | as-written member | corrected member |
|---|---|---|---|---|---|---|
| batterway/datamodel/generic/process.py:105 | `self.inputs.set_quantity_of_product(product, qty)` calls a method `BoM` does not define | any non-empty `products_qty`, e.g. `{"nickel": 1.0}` | set the quantity of the input whose product has that name | not executed | Processes.FixedInputsAsWrittenAlwaysFail | Processes.ApplyFixedSpec |
| batterway/datamodel/generic/product.py:184-187 | `__eq__` reads `other.qty` after checking `isinstance(other, Quantity)` and returns False for every ProductInstance | `i == i` for any instance `i` is False; `i == Quantity(1, kg)` raises AttributeError | equal iff `other` is a ProductInstance with the same product and quantity | not executed | Algebra.InstanceEqAsWrittenIsNeverReflexive | Algebra.InstanceEq |
| batterway/datamodel/generic/process.py:124-128 | `[f.product for f in process.outputs]` (and the same for `process.inputs`) iterates a `BoM`, which defines neither `__iter__` nor `__getitem__` | any route with at least one process: the first pass raises TypeError | iterate the BoM's values, `process.outputs.product_quantities.values()` | not executed | Processes.EnsureConsistencyAsWrittenFails | Processes.EnsureConsistency |
| batterway/datamodel/generic/product.py:113 | `product.get_final_bom() * p_instance.qty` scales a subassembly's flattened BoM by the entry's absolute quantity | a 2 kg subassembly made of 2 kg of nickel, used at 1 kg in a 1 kg assembly: both pass the construction check, and the assembly flattens to 2 kg of nickel | scale by the entry's quantity relative to the subassembly's reference, so that a flattened BoM adds up to the reference value; the two agree when every subassembly has reference value 1, as the test's cell does | not executed | Example.AbsoluteScalingInflates | Flattening.FinalBomTotal |
