/**
 * Unit-checked arithmetic on `Quantity` and same-product-checked arithmetic on
 * `ProductInstance` (batterway/datamodel/generic/product.py). The `Quantity` class of the
 * older variant (batterway/datamodel/Generic/Product.py) has the same arithmetic, so both
 * variants use this module; only its `__eq__` differs (module LegacyProducts).
 */
module Algebra {
  import opened Outcomes

  /** A `Unit` object. `Unit` defines no `__eq__`, so units compare by object identity. */
  type UnitRef = nat

  /** A `Product` object. `Product` defines no `__eq__`, so products compare by object identity. */
  type ProductRef = nat

  datatype Quantity = Quantity(value: real, unit: UnitRef)

  /** A `ProductInstance`: this much of that product. */
  datatype Instance = Instance(product: ProductRef, qty: Quantity)

  /** The other operand of a Python operator: a number (`int` or `float`), a `Quantity`,
      a `ProductInstance`, or any other object (a string, `None`, a `Fraction`, ...).
      `equalsZero` says whether that object's `== 0` is true, as it is for `Fraction(0)`
      or `Decimal(0)`; the zero test of `__radd__` reads nothing else of it. */
  datatype Operand = Num(x: real) | Qty(q: Quantity) | Inst(i: Instance) | Other(equalsZero: bool)

  /** The three operators `__add__`, `__sub__` and `__mul__` share one shape. */
  datatype ArithOp = Plus | Minus | Times

  function Apply(op: ArithOp, x: real, y: real): real
  {
    match op
    case Plus => x + y
    case Minus => x - y
    case Times => x * y
  }

  /** The value a number or a `Quantity` contributes to `Quantity` arithmetic. */
  function Magnitude(other: Operand): real
    requires other.Num? || other.Qty?
  {
    if other.Num? then other.x else other.q.value
  }

  /** `Quantity._compatibility_check` raises only for a `Quantity` of another unit object.
      For an operand of any other type it RETURNS a `TypeError` object, which is truthy. */
  predicate UnitClash(self: Quantity, other: Operand)
  {
    other.Qty? && other.q.unit != self.unit
  }

  // ---------------------------------------------------------------------------
  // Quantity
  // ---------------------------------------------------------------------------

  /** `a op b` for two Quantities of which `a` is on the left. */
  function CombineQuantities(op: ArithOp, a: Quantity, b: Quantity): (r: Outcome<Quantity>)
    ensures r.Raises? <==> a.unit != b.unit
    ensures r.Raises? ==> r.error == ValueError
    ensures r.Returns? ==> r.value.unit == a.unit && r.value.value == Apply(op, a.value, b.value)
  {
    if a.unit != b.unit then Raises(ValueError)
    else Returns(Quantity(Apply(op, a.value, b.value), a.unit))
  }

  /** `Quantity.__add__`, `__sub__` and `__mul__`: `self op other`. */
  function QuantityOp(op: ArithOp, self: Quantity, other: Operand): (r: Outcome<Option<Quantity>>)
    ensures r.Raises? <==> UnitClash(self, other)
    ensures r.Raises? ==> r.error == ValueError
    ensures r == Returns(None) <==> !(other.Num? || other.Qty?)
    ensures r.Returns? && r.value.Some? ==>
              r.value.value.unit == self.unit
              && r.value.value.value == Apply(op, self.value, Magnitude(other))
  {
    match other
    case Qty(q) =>
      (match CombineQuantities(op, self, q)
       case Raises(e) => Raises(e)
       case Returns(res) => Returns(Some(res)))
    case Num(x) => Returns(Some(Quantity(Apply(op, self.value, x), self.unit)))
    case _ => Returns(None)
  }

  /** `Quantity.__gt__`. */
  function QuantityGt(self: Quantity, other: Operand): (r: Outcome<Option<bool>>)
    ensures r.Raises? <==> UnitClash(self, other)
    ensures r.Raises? ==> r.error == ValueError
    ensures r == Returns(None) <==> !(other.Num? || other.Qty?)
    ensures r.Returns? && r.value.Some? ==> (r.value.value <==> self.value > Magnitude(other))
  {
    if UnitClash(self, other) then Raises(ValueError)
    else match other
      case Qty(q) => Returns(Some(self.value > q.value))
      case Num(x) => Returns(Some(self.value > x))
      case _ => Returns(None)
  }

  /** `Quantity.__eq__` of generic/product.py: a bare number compares with the value. */
  function QuantityEq(self: Quantity, other: Operand): (r: bool)
    ensures r <==> (other.Qty? && other.q == self) || (other.Num? && other.x == self.value)
  {
    match other
    case Qty(q) => self.value == q.value && self.unit == q.unit
    case Num(x) => self.value == x
    case _ => false
  }

  /** Whether `other == 0 or (isinstance(other, Quantity) and other.value == 0)` holds in
      `__radd__`; with the older `__eq__` the first disjunct is false for a Quantity, but
      then the second one decides, so the condition is the same in both variants. Any
      other object decides `other == 0` by its own `__eq__`. */
  predicate IsZero(other: Operand)
  {
    (other.Num? && other.x == 0.0) || (other.Qty? && other.q.value == 0.0) || (other.Other? && other.equalsZero)
  }

  /** `Quantity.__radd__`: `other + self` when `other` has no `__add__` of its own for a
      Quantity, as for the start value `0` of `sum()`. A zero on the left gives back
      `self` itself. Any other object has passed `_compatibility_check` as a truthy
      `TypeError`, so it too gives back `self` when it equals 0, and `None` otherwise. */
  function QuantityRAdd(self: Quantity, other: Operand): (r: Outcome<Option<Quantity>>)
    ensures r.Raises? <==> UnitClash(self, other)
    ensures IsZero(other) && !UnitClash(self, other) ==> r == Returns(Some(self))
    ensures !IsZero(other) ==> r == QuantityOp(Plus, self, other)
    ensures other.Other? ==> r == if other.equalsZero then Returns(Some(self)) else Returns(None)
  {
    if UnitClash(self, other) then Raises(ValueError)
    else if IsZero(other) then Returns(Some(self))
    else QuantityOp(Plus, self, other)
  }

  /** Adding a number and then subtracting it gives the Quantity back. */
  lemma PlusMinusRoundTrip(self: Quantity, other: Operand)
    requires other.Num? || other.Qty?
    requires !UnitClash(self, other)
    ensures QuantityOp(Plus, self, other).Returns?
    ensures QuantityOp(Plus, self, other).value.Some?
    ensures QuantityOp(Minus, QuantityOp(Plus, self, other).value.value, other) == Returns(Some(self))
  {
    var sum := QuantityOp(Plus, self, other).value.value;
    assert sum.unit == self.unit;
    assert !UnitClash(sum, other);
  }

  /** `self > other` exactly when `self - other` is positive, and both raise together. */
  lemma GreaterMeansPositiveDifference(self: Quantity, other: Operand)
    ensures QuantityGt(self, other).Raises? <==> QuantityOp(Minus, self, other).Raises?
    ensures QuantityGt(self, other) == Returns(None) <==> QuantityOp(Minus, self, other) == Returns(None)
    ensures QuantityGt(self, other).Returns? && QuantityGt(self, other).value.Some? ==>
              (QuantityGt(self, other).value.value <==> QuantityOp(Minus, self, other).value.value.value > 0.0)
  {
  }

  // ---------------------------------------------------------------------------
  // sum() over Quantities
  // ---------------------------------------------------------------------------

  /** One step `acc + q` of Python's `sum()`. While `acc` is still a number, `int.__add__`
      gives up and Python calls `q.__radd__(acc)`. */
  function SumStep(acc: Operand, q: Quantity): Outcome<Operand>
  {
    match acc
    case Num(_) =>
      (match QuantityRAdd(q, acc)
       case Raises(e) => Raises(e)
       case Returns(None) => Returns(Other(false))
       case Returns(Some(r)) => Returns(Qty(r)))
    case Qty(a) =>
      (match CombineQuantities(Plus, a, q)
       case Raises(e) => Raises(e)
       case Returns(r) => Returns(Qty(r)))
    // `None + Quantity` and `ProductInstance + Quantity` do not occur inside `sum()`
    case _ => Raises(TypeError)
  }

  /** Python's `sum(qs)`, folding from the `int` 0 in list order. */
  function PySum(qs: seq<Quantity>): Outcome<Operand>
  {
    if |qs| == 0 then Returns(Num(0.0))
    else match PySum(qs[..|qs| - 1])
      case Raises(e) => Raises(e)
      case Returns(acc) => SumStep(acc, qs[|qs| - 1])
  }

  function ValueSum(qs: seq<Quantity>): real
  {
    if |qs| == 0 then 0.0 else ValueSum(qs[..|qs| - 1]) + qs[|qs| - 1].value
  }

  predicate SameUnit(qs: seq<Quantity>, u: UnitRef)
  {
    forall i :: 0 <= i < |qs| ==> qs[i].unit == u
  }

  /** `sum()` over Quantities from 0: the int 0 for no Quantities, the value sum in the
      first Quantity's unit when all units are that one object, ValueError otherwise. */
  lemma {:induction false} SumOfQuantities(qs: seq<Quantity>)
    ensures |qs| == 0 ==> PySum(qs) == Returns(Num(0.0))
    ensures |qs| > 0 && SameUnit(qs, qs[0].unit) ==>
              PySum(qs) == Returns(Qty(Quantity(ValueSum(qs), qs[0].unit)))
    ensures |qs| > 0 && !SameUnit(qs, qs[0].unit) ==> PySum(qs) == Raises(ValueError)
  {
    if |qs| > 1 {
      var init := qs[..|qs| - 1];
      SumOfQuantities(init);
      assert init[0] == qs[0];
      if SameUnit(init, qs[0].unit) {
        if !SameUnit(qs, qs[0].unit) {
          assert qs[|qs| - 1].unit != qs[0].unit by {
            var i :| 0 <= i < |qs| && qs[i].unit != qs[0].unit;
          }
        }
      } else {
        var i :| 0 <= i < |init| && init[i].unit != qs[0].unit;
        assert qs[i] == init[i];
      }
    } else if |qs| == 1 {
      assert qs[..0] == [];
      assert ValueSum(qs) == ValueSum(qs[..0]) + qs[0].value;
    }
  }

  // ---------------------------------------------------------------------------
  // ProductInstance
  // ---------------------------------------------------------------------------

  /** `ProductInstance._compatibility_check` raises for an instance of another product
      object; for an operand that is neither a number, a Quantity nor an instance it
      returns a (truthy) `TypeError` object. */
  predicate ProductClash(self: Instance, other: Operand)
  {
    other.Inst? && other.i.product != self.product
  }

  /** The value a number, a Quantity or an instance contributes to instance arithmetic:
      only `.value` of a Quantity is used, so its unit is ignored. */
  function InstanceMagnitude(other: Operand): real
    requires !other.Other?
  {
    match other
    case Num(x) => x
    case Qty(q) => q.value
    case Inst(o) => o.qty.value
  }

  /** `ProductInstance.__add__`, `__sub__` and `__mul__`. Only an instance operand
      reaches `Quantity` arithmetic with a Quantity, and so only it is unit-checked. */
  function InstanceOp(op: ArithOp, self: Instance, other: Operand): (r: Outcome<Option<Instance>>)
    ensures r.Raises? <==> ProductClash(self, other) || (other.Inst? && other.i.qty.unit != self.qty.unit)
    ensures r.Raises? ==> r.error == ValueError
    ensures r == Returns(None) <==> other.Other?
    ensures r.Returns? && r.value.Some? ==>
              r.value.value == Instance(self.product,
                                        Quantity(Apply(op, self.qty.value, InstanceMagnitude(other)),
                                                 self.qty.unit))
  {
    if ProductClash(self, other) then Raises(ValueError)
    else match other
      case Inst(o) =>
        (match CombineQuantities(op, self.qty, o.qty)
         case Raises(e) => Raises(e)
         case Returns(q) => Returns(Some(Instance(self.product, q))))
      case Qty(q) => Returns(Some(Instance(self.product, Quantity(Apply(op, self.qty.value, q.value), self.qty.unit))))
      case Num(x) => Returns(Some(Instance(self.product, Quantity(Apply(op, self.qty.value, x), self.qty.unit))))
      case Other(_) => Returns(None)
  }

  /** `ProductInstance.__gt__`. Unlike `+`, a Quantity operand is compared through
      `Quantity.__gt__`, so here a Quantity of another unit raises. */
  function InstanceGt(self: Instance, other: Operand): (r: Outcome<Option<bool>>)
    ensures r.Raises? <==>
              ProductClash(self, other)
              || (other.Qty? && other.q.unit != self.qty.unit)
              || (other.Inst? && other.i.qty.unit != self.qty.unit)
    ensures r.Raises? ==> r.error == ValueError
    ensures r == Returns(None) <==> other.Other?
    ensures r.Returns? && r.value.Some? ==> (r.value.value <==> self.qty.value > InstanceMagnitude(other))
  {
    if ProductClash(self, other) then Raises(ValueError)
    else match other
      case Qty(q) => QuantityGt(self.qty, other)
      case Num(x) => QuantityGt(self.qty, other)
      case Inst(o) => QuantityGt(self.qty, Qty(o.qty))
      case Other(_) => Returns(None)
  }

  /** Whether the zero test of `ProductInstance.__radd__` holds: a zero number, a
      zero-valued Quantity, or an instance whose quantity equals 0. */
  predicate IsZeroForInstance(other: Operand)
  {
    IsZero(other) || (other.Inst? && QuantityEq(other.i.qty, Num(0.0)))
  }

  /** `ProductInstance.__radd__`: `other + self`; a zero on the left gives back `self`,
      including any other object that equals 0. */
  function InstanceRAdd(self: Instance, other: Operand): (r: Outcome<Option<Instance>>)
    ensures ProductClash(self, other) ==> r == Raises(ValueError)
    ensures !ProductClash(self, other) && IsZeroForInstance(other) ==> r == Returns(Some(self))
    ensures !IsZeroForInstance(other) ==> r == InstanceOp(Plus, self, other)
    ensures other.Other? ==> r == if other.equalsZero then Returns(Some(self)) else Returns(None)
  {
    if ProductClash(self, other) then Raises(ValueError)
    else if IsZeroForInstance(other) then Returns(Some(self))
    else InstanceOp(Plus, self, other)
  }

  /** `a + b` for two instances, the case `collections.Counter` addition uses for a
      product key present in both BoMs. */
  function AddInstances(a: Instance, b: Instance): (r: Outcome<Instance>)
    ensures r.Raises? <==> a.product != b.product || a.qty.unit != b.qty.unit
    ensures r.Returns? ==> r.value == Instance(a.product, Quantity(a.qty.value + b.qty.value, a.qty.unit))
    ensures InstanceOp(Plus, a, Inst(b)) == (if r.Raises? then Raises(r.error) else Returns(Some(r.value)))
  {
    if a.product != b.product || a.qty.unit != b.qty.unit then Raises(ValueError)
    else Returns(Instance(a.product, Quantity(a.qty.value + b.qty.value, a.qty.unit)))
  }

  /** `instance * x` for a number or a Quantity `x`: the quantity is scaled by the value,
      whatever the Quantity's unit. */
  function ScaleInstance(a: Instance, factor: real): (r: Instance)
    ensures r.product == a.product && r.qty.unit == a.qty.unit && r.qty.value == a.qty.value * factor
    ensures InstanceOp(Times, a, Num(factor)) == Returns(Some(r))
  {
    assert Apply(Times, a.qty.value, factor) == a.qty.value * factor;
    Instance(a.product, Quantity(a.qty.value * factor, a.qty.unit))
  }

  /** `ProductInstance.__eq__` as written: after `isinstance(other, Quantity)` it reads
      `other.qty`, which a Quantity does not have. */
  function InstanceEqAsWritten(self: Instance, other: Operand): (r: Outcome<bool>)
    ensures other.Qty? <==> r == Raises(AttributeError)
    ensures !other.Qty? ==> r == Returns(false)
  {
    if other.Qty? then Raises(AttributeError) else Returns(false)
  }

  /** `ProductInstance.__eq__` as evidently intended: the same product object and equal
      quantities. */
  function InstanceEq(self: Instance, other: Operand): (r: bool)
    ensures r <==> other == Inst(self)
  {
    other.Inst? && QuantityEq(self.qty, Qty(other.i.qty)) && self.product == other.i.product
  }

  /** As written, no instance equals itself, and comparing with a Quantity raises. */
  lemma InstanceEqAsWrittenIsNeverReflexive(a: Instance, q: Quantity)
    ensures InstanceEqAsWritten(a, Inst(a)) == Returns(false)
    ensures InstanceEqAsWritten(a, Qty(q)) == Raises(AttributeError)
    ensures InstanceEq(a, Inst(a))
  {
  }
}
