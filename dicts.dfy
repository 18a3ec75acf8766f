/**
 * Python dictionaries as the sequence of their items in insertion order, and the
 * addition of `collections.Counter` objects that `BoM.__add__` relies on
 * (batterway/datamodel/generic/product.py:135, batterway/datamodel/Generic/Product.py:133).
 * The order matters: Counter addition drops entries that are not positive as it goes, so
 * folding BoMs in another order can give another result. Every dict of the core is keyed
 * by `Product` objects.
 */
module Dicts {
  import opened Outcomes
  import opened Algebra

  function Keys<V>(d: seq<(ProductRef, V)>): set<ProductRef>
  {
    if |d| == 0 then {} else {d[0].0} + Keys(d[1..])
  }

  /** A dict never holds a key twice. */
  predicate UniqueKeys<V>(d: seq<(ProductRef, V)>)
  {
    |d| == 0 || (d[0].0 !in Keys(d[1..]) && UniqueKeys(d[1..]))
  }

  /** `d.get(k)`: the value stored under `k`, if any. */
  function Get<V>(d: seq<(ProductRef, V)>, k: ProductRef): (r: Option<V>)
    ensures r.Some? <==> k in Keys(d)
  {
    if |d| == 0 then None else if d[0].0 == k then Some(d[0].1) else Get(d[1..], k)
  }

  /** `d[k] = v`: a present key keeps its place and gets the new value, a new key goes last. */
  function Put<V>(d: seq<(ProductRef, V)>, k: ProductRef, v: V): (r: seq<(ProductRef, V)>)
    ensures Keys(r) == Keys(d) + {k}
    ensures UniqueKeys(d) ==> UniqueKeys(r)
    ensures forall j :: Get(r, j) == if j == k then Some(v) else Get(d, j)
  {
    if |d| == 0 then [(k, v)]
    else if d[0].0 == k then
      assert ([(k, v)] + d[1..])[1..] == d[1..];
      [(k, v)] + d[1..]
    else
      var rest := Put(d[1..], k, v);
      assert ([d[0]] + rest)[1..] == rest;
      [d[0]] + rest
  }

  /** With unique keys, the value found under the key of position `i` is the one stored at `i`. */
  lemma {:induction false} GetAt<V>(es: seq<(ProductRef, V)>, i: int)
    requires 0 <= i < |es| && UniqueKeys(es)
    ensures es[i].0 in Keys(es) && Get(es, es[i].0) == Some(es[i].1)
  {
    if i > 0 {
      GetAt(es[1..], i - 1);
    }
  }

  /** What Counter addition keeps of a count: the count when positive, else nothing (0). */
  function Positive(x: real): real
  {
    if x > 0.0 then x else 0.0
  }

  lemma {:induction false} KeysOfConcat<V>(a: seq<(ProductRef, V)>, b: seq<(ProductRef, V)>)
    ensures Keys(a + b) == Keys(a) + Keys(b)
    ensures forall j :: Get(a + b, j) == if j in Keys(a) then Get(a, j) else Get(b, j)
  {
    if |a| > 0 {
      assert (a + b)[1..] == a[1..] + b;
      KeysOfConcat(a[1..], b);
    } else {
      assert a + b == b;
    }
  }

  lemma {:induction false} UniqueKeysOfConcat<V>(a: seq<(ProductRef, V)>, b: seq<(ProductRef, V)>)
    requires UniqueKeys(a) && UniqueKeys(b) && Keys(a) !! Keys(b)
    ensures UniqueKeys(a + b)
  {
    if |a| > 0 {
      assert (a + b)[1..] == a[1..] + b;
      UniqueKeysOfConcat(a[1..], b);
      KeysOfConcat(a[1..], b);
    } else {
      assert a + b == b;
    }
  }

  // ---------------------------------------------------------------------------
  // Counter addition
  // ---------------------------------------------------------------------------

  /** First loop of `Counter.__add__`: every key of the left operand, in its order, with
      `count + other[elem]` (a missing key counts as 0, and adding 0 changes no value),
      kept when the new count is positive. The first failing addition raises. */
  function KeptFromLeft<V>(a: seq<(ProductRef, V)>, b: seq<(ProductRef, V)>,
                              plus: (V, V) -> Outcome<V>, amount: V -> real): Outcome<seq<(ProductRef, V)>>
  {
    if |a| == 0 then Returns([])
    else
      var count := match Get(b, a[0].0)
        case None => Returns(a[0].1)
        case Some(w) => plus(a[0].1, w);
      match count
      case Raises(e) => Raises(e)
      case Returns(c) =>
        match KeptFromLeft(a[1..], b, plus, amount)
        case Raises(e) => Raises(e)
        case Returns(rest) => Returns(if amount(c) > 0.0 then [(a[0].0, c)] + rest else rest)
  }

  /** Second loop of `Counter.__add__`: the keys only the right operand has, in its order,
      when their count is positive. */
  function NewFromRight<V>(b: seq<(ProductRef, V)>, a: seq<(ProductRef, V)>, amount: V -> real): seq<(ProductRef, V)>
  {
    if |b| == 0 then []
    else
      var rest := NewFromRight(b[1..], a, amount);
      if b[0].0 !in Keys(a) && amount(b[0].1) > 0.0 then [b[0]] + rest else rest
  }

  /** `dict(Counter(a) + Counter(b))` where `plus` is the `+` of the values and `amount`
      the number that `> 0` compares. */
  function CounterAdd<V>(a: seq<(ProductRef, V)>, b: seq<(ProductRef, V)>,
                            plus: (V, V) -> Outcome<V>, amount: V -> real): Outcome<seq<(ProductRef, V)>>
  {
    match KeptFromLeft(a, b, plus, amount)
    case Raises(e) => Raises(e)
    case Returns(left) => Returns(left + NewFromRight(b, a, amount))
  }

  /** The entry Counter addition leaves under key `j`, when no addition raised. */
  function Expected<V>(a: seq<(ProductRef, V)>, b: seq<(ProductRef, V)>,
                          plus: (V, V) -> Outcome<V>, amount: V -> real, j: ProductRef): Option<V>
  {
    match (Get(a, j), Get(b, j))
    case (Some(v), Some(w)) =>
      (match plus(v, w)
       case Returns(c) => if amount(c) > 0.0 then Some(c) else None
       case Raises(_) => None)
    case (Some(v), None) => if amount(v) > 0.0 then Some(v) else None
    case (None, Some(w)) => if amount(w) > 0.0 then Some(w) else None
    case (None, None) => None
  }

  /** Whether summing the two values under a shared key `j` raises. */
  predicate SharedKeyFails<V>(a: seq<(ProductRef, V)>, b: seq<(ProductRef, V)>, plus: (V, V) -> Outcome<V>, j: ProductRef)
  {
    Get(a, j).Some? && Get(b, j).Some? && plus(Get(a, j).value, Get(b, j).value).Raises?
  }

  lemma {:induction false} KeptFromLeftSpec<V>(a: seq<(ProductRef, V)>, b: seq<(ProductRef, V)>,
                                                  plus: (V, V) -> Outcome<V>, amount: V -> real)
    requires UniqueKeys(a)
    ensures KeptFromLeft(a, b, plus, amount).Raises? <==>
              exists j :: j in Keys(a) && SharedKeyFails(a, b, plus, j)
    ensures KeptFromLeft(a, b, plus, amount).Raises? ==>
              exists j :: j in Keys(a) && SharedKeyFails(a, b, plus, j)
                          && KeptFromLeft(a, b, plus, amount).error == plus(Get(a, j).value, Get(b, j).value).error
    ensures KeptFromLeft(a, b, plus, amount).Returns? ==>
              var l := KeptFromLeft(a, b, plus, amount).value;
              UniqueKeys(l) && Keys(l) <= Keys(a)
              && forall j :: j in Keys(a) ==> Get(l, j) == Expected(a, b, plus, amount, j)
  {
    if |a| > 0 {
      var k := a[0].0;
      var tail := a[1..];
      KeptFromLeftSpec(tail, b, plus, amount);
      assert Keys(a) == {k} + Keys(tail);
      forall j | j in Keys(tail) ensures Get(a, j) == Get(tail, j) {
      }
      var r := KeptFromLeft(a, b, plus, amount);
      var count := match Get(b, k)
        case None => Returns(a[0].1)
        case Some(w) => plus(a[0].1, w);
      if count.Raises? {
        assert SharedKeyFails(a, b, plus, k);
      } else {
        var rt := KeptFromLeft(tail, b, plus, amount);
        if rt.Raises? {
          var j :| j in Keys(tail) && SharedKeyFails(tail, b, plus, j)
                   && rt.error == plus(Get(tail, j).value, Get(b, j).value).error;
          assert SharedKeyFails(a, b, plus, j);
        } else {
          assert !SharedKeyFails(a, b, plus, k);
          forall j | j in Keys(a) ensures !SharedKeyFails(a, b, plus, j) {
            if j != k { assert j in Keys(tail); }
          }
          var c := count.value;
          var l := r.value;
          if amount(c) > 0.0 {
            assert l == [(k, c)] + rt.value;
            assert l[1..] == rt.value;
          }
          forall j | j in Keys(a) ensures Get(l, j) == Expected(a, b, plus, amount, j) {
            if j == k {
              assert k !in Keys(rt.value);
            }
          }
        }
      }
    }
  }

  lemma {:induction false} NewFromRightSpec<V>(b: seq<(ProductRef, V)>, a: seq<(ProductRef, V)>, amount: V -> real)
    requires UniqueKeys(b)
    ensures var n := NewFromRight(b, a, amount);
            UniqueKeys(n) && Keys(n) <= Keys(b) && Keys(n) !! Keys(a)
            && forall j :: j in Keys(b) && j !in Keys(a) ==>
                 Get(n, j) == (if amount(Get(b, j).value) > 0.0 then Get(b, j) else None)
  {
    if |b| > 0 {
      var tail := b[1..];
      NewFromRightSpec(tail, a, amount);
      var n := NewFromRight(b, a, amount);
      var rest := NewFromRight(tail, a, amount);
      if b[0].0 !in Keys(a) && amount(b[0].1) > 0.0 {
        assert n == [b[0]] + rest;
        assert n[1..] == rest;
      }
    }
  }

  /** Counter addition, key by key: it raises exactly when the values under some shared
      key cannot be added (with the error of one such addition); otherwise every key of
      either side ends with the summed, or one-sided, value when that is positive, and
      is absent when it is not. */
  lemma CounterAddSpec<V>(a: seq<(ProductRef, V)>, b: seq<(ProductRef, V)>,
                             plus: (V, V) -> Outcome<V>, amount: V -> real)
    requires UniqueKeys(a) && UniqueKeys(b)
    ensures CounterAdd(a, b, plus, amount).Raises? <==> exists j :: SharedKeyFails(a, b, plus, j)
    ensures CounterAdd(a, b, plus, amount).Raises? ==>
              exists j :: SharedKeyFails(a, b, plus, j)
                          && CounterAdd(a, b, plus, amount).error == plus(Get(a, j).value, Get(b, j).value).error
    ensures CounterAdd(a, b, plus, amount).Returns? ==>
              var r := CounterAdd(a, b, plus, amount).value;
              UniqueKeys(r) && Keys(r) <= Keys(a) + Keys(b)
              && forall j :: Get(r, j) == Expected(a, b, plus, amount, j)
  {
    KeptFromLeftSpec(a, b, plus, amount);
    NewFromRightSpec(b, a, amount);
    var r := CounterAdd(a, b, plus, amount);
    if r.Returns? {
      var left := KeptFromLeft(a, b, plus, amount).value;
      var right := NewFromRight(b, a, amount);
      KeysOfConcat(left, right);
      UniqueKeysOfConcat(left, right);
      forall j ensures Get(r.value, j) == Expected(a, b, plus, amount, j) {
        if j !in Keys(a) && j !in Keys(b) {
          assert Get(r.value, j) == None;
        }
      }
    }
  }

  /** With no shared key and only positive counts, Counter addition concatenates. */
  lemma {:induction false} CounterAddDisjoint<V>(a: seq<(ProductRef, V)>, b: seq<(ProductRef, V)>,
                                                    plus: (V, V) -> Outcome<V>, amount: V -> real)
    requires Keys(a) !! Keys(b)
    requires forall i :: 0 <= i < |a| ==> amount(a[i].1) > 0.0
    requires forall i :: 0 <= i < |b| ==> amount(b[i].1) > 0.0
    ensures CounterAdd(a, b, plus, amount) == Returns(a + b)
  {
    KeptDisjoint(a, b, plus, amount);
    NewDisjoint(b, a, amount);
  }

  lemma {:induction false} KeptDisjoint<V>(a: seq<(ProductRef, V)>, b: seq<(ProductRef, V)>,
                                              plus: (V, V) -> Outcome<V>, amount: V -> real)
    requires Keys(a) !! Keys(b)
    requires forall i :: 0 <= i < |a| ==> amount(a[i].1) > 0.0
    ensures KeptFromLeft(a, b, plus, amount) == Returns(a)
  {
    if |a| > 0 {
      KeptDisjoint(a[1..], b, plus, amount);
      assert [(a[0].0, a[0].1)] + a[1..] == a;
    }
  }

  lemma {:induction false} NewDisjoint<V>(b: seq<(ProductRef, V)>, a: seq<(ProductRef, V)>, amount: V -> real)
    requires Keys(a) !! Keys(b)
    requires forall i :: 0 <= i < |b| ==> amount(b[i].1) > 0.0
    ensures NewFromRight(b, a, amount) == b
  {
    if |b| > 0 {
      NewDisjoint(b[1..], a, amount);
      assert [b[0]] + b[1..] == b;
    }
  }

  // ---------------------------------------------------------------------------
  // Totals
  // ---------------------------------------------------------------------------

  /** The sum of the amounts of a dict's values, in order. */
  function AmountSum<V>(d: seq<(ProductRef, V)>, amount: V -> real): real
  {
    if |d| == 0 then 0.0 else amount(d[0].1) + AmountSum(d[1..], amount)
  }

  /** The sum of the amounts of the values whose key is in `s` (`inside`) or not in it. */
  function AmountSumWhere<V>(d: seq<(ProductRef, V)>, s: set<ProductRef>, inside: bool, amount: V -> real): real
  {
    if |d| == 0 then 0.0
    else (if (d[0].0 in s) == inside then amount(d[0].1) else 0.0) + AmountSumWhere(d[1..], s, inside, amount)
  }

  /** The amount `d` holds under `k`, 0 when `k` is absent. */
  function AmountAt<V>(d: seq<(ProductRef, V)>, k: ProductRef, amount: V -> real): real
  {
    match Get(d, k)
    case None => 0.0
    case Some(w) => amount(w)
  }

  /** The amounts `b` holds under the keys of `a`, visited in the order of `a`. */
  function SharedAmount<V>(a: seq<(ProductRef, V)>, b: seq<(ProductRef, V)>, amount: V -> real): real
  {
    if |a| == 0 then 0.0 else AmountAt(b, a[0].0, amount) + SharedAmount(a[1..], b, amount)
  }

  predicate PositiveAmounts<V>(d: seq<(ProductRef, V)>, amount: V -> real)
  {
    forall i :: 0 <= i < |d| ==> amount(d[i].1) > 0.0
  }

  /** Adding two values adds their amounts. */
  ghost predicate AmountAdditive<V(!new)>(plus: (V, V) -> Outcome<V>, amount: V -> real)
  {
    forall x, y :: plus(x, y).Returns? ==> amount(plus(x, y).value) == amount(x) + amount(y)
  }

  /** With positive, additive amounts Counter addition loses nothing: the amounts of the
      result add up to those of both operands together. */
  lemma {:induction false} CounterAddTotal<V(!new)>(a: seq<(ProductRef, V)>, b: seq<(ProductRef, V)>,
                           plus: (V, V) -> Outcome<V>, amount: V -> real)
    requires UniqueKeys(a) && UniqueKeys(b) && PositiveAmounts(a, amount) && PositiveAmounts(b, amount)
    requires AmountAdditive(plus, amount) && CounterAdd(a, b, plus, amount).Returns?
    ensures AmountSum(CounterAdd(a, b, plus, amount).value, amount) == AmountSum(a, amount) + AmountSum(b, amount)
  {
    var left := KeptFromLeft(a, b, plus, amount).value;
    KeptTotal(a, b, plus, amount);
    NewTotal(b, a, amount);
    AmountSumConcat(left, NewFromRight(b, a, amount), amount);
    AmountSumSplit(b, Keys(a), amount);
    SharedAmountIsInside(a, b, amount);
  }

  /** The first phase keeps every left value, summed with the right one under a shared key. */
  lemma {:induction false} KeptTotal<V(!new)>(a: seq<(ProductRef, V)>, b: seq<(ProductRef, V)>,
                                          plus: (V, V) -> Outcome<V>, amount: V -> real)
    requires PositiveAmounts(a, amount) && PositiveAmounts(b, amount) && AmountAdditive(plus, amount)
    requires KeptFromLeft(a, b, plus, amount).Returns?
    ensures AmountSum(KeptFromLeft(a, b, plus, amount).value, amount) == AmountSum(a, amount) + SharedAmount(a, b, amount)
  {
    if |a| > 0 {
      assert PositiveAmounts(a[1..], amount) by {
        forall i | 0 <= i < |a[1..]| ensures amount(a[1..][i].1) > 0.0 {
          assert a[1..][i] == a[i + 1];
        }
      }
      KeptTotal(a[1..], b, plus, amount);
      var rest := KeptFromLeft(a[1..], b, plus, amount).value;
      match Get(b, a[0].0)
      case None =>
        assert KeptFromLeft(a, b, plus, amount).value == [(a[0].0, a[0].1)] + rest;
        assert ([(a[0].0, a[0].1)] + rest)[1..] == rest;
      case Some(w) =>
        GetPositive(b, a[0].0, amount);
        var c := plus(a[0].1, w).value;
        assert amount(c) == amount(a[0].1) + amount(w);
        assert KeptFromLeft(a, b, plus, amount).value == [(a[0].0, c)] + rest;
        assert ([(a[0].0, c)] + rest)[1..] == rest;
    }
  }

  /** The second phase keeps exactly the right values whose key the left operand lacks. */
  lemma {:induction false} NewTotal<V>(b: seq<(ProductRef, V)>, a: seq<(ProductRef, V)>, amount: V -> real)
    requires PositiveAmounts(b, amount)
    ensures AmountSum(NewFromRight(b, a, amount), amount) == AmountSumWhere(b, Keys(a), false, amount)
  {
    if |b| > 0 {
      assert PositiveAmounts(b[1..], amount) by {
        forall i | 0 <= i < |b[1..]| ensures amount(b[1..][i].1) > 0.0 {
          assert b[1..][i] == b[i + 1];
        }
      }
      NewTotal(b[1..], a, amount);
      var rest := NewFromRight(b[1..], a, amount);
      if b[0].0 !in Keys(a) {
        assert ([b[0]] + rest)[1..] == rest;
      }
    }
  }

  /** A value `d` holds under a key has a positive amount when all of them do. */
  lemma {:induction false} GetPositive<V>(d: seq<(ProductRef, V)>, k: ProductRef, amount: V -> real)
    requires PositiveAmounts(d, amount) && Get(d, k).Some?
    ensures amount(Get(d, k).value) > 0.0
  {
    if d[0].0 != k {
      assert PositiveAmounts(d[1..], amount) by {
        forall i | 0 <= i < |d[1..]| ensures amount(d[1..][i].1) > 0.0 {
          assert d[1..][i] == d[i + 1];
        }
      }
      GetPositive(d[1..], k, amount);
    }
  }

  lemma {:induction false} AmountSumConcat<V>(x: seq<(ProductRef, V)>, y: seq<(ProductRef, V)>, amount: V -> real)
    ensures AmountSum(x + y, amount) == AmountSum(x, amount) + AmountSum(y, amount)
  {
    if |x| > 0 {
      assert (x + y)[1..] == x[1..] + y;
      AmountSumConcat(x[1..], y, amount);
    } else {
      assert x + y == y;
    }
  }

  /** Every value's key is either in `s` or not. */
  lemma {:induction false} AmountSumSplit<V>(d: seq<(ProductRef, V)>, s: set<ProductRef>, amount: V -> real)
    ensures AmountSum(d, amount) == AmountSumWhere(d, s, true, amount) + AmountSumWhere(d, s, false, amount)
  {
    if |d| > 0 {
      AmountSumSplit(d[1..], s, amount);
    }
  }

  /** Looking the keys of `a` up in `b` one by one sums the values of `b` filed under them. */
  lemma {:induction false} SharedAmountIsInside<V>(a: seq<(ProductRef, V)>, b: seq<(ProductRef, V)>, amount: V -> real)
    requires UniqueKeys(a) && UniqueKeys(b)
    ensures SharedAmount(a, b, amount) == AmountSumWhere(b, Keys(a), true, amount)
  {
    if |a| == 0 {
      NothingInside(b, Keys(a), amount);
    } else {
      SharedAmountIsInside(a[1..], b, amount);
      InsideOneMore(b, Keys(a[1..]), a[0].0, amount);
    }
  }

  lemma {:induction false} NothingInside<V>(d: seq<(ProductRef, V)>, s: set<ProductRef>, amount: V -> real)
    requires s == {}
    ensures AmountSumWhere(d, s, true, amount) == 0.0
  {
    if |d| > 0 {
      NothingInside(d[1..], s, amount);
    }
  }

  /** One more key in the filter adds the amount filed under it. */
  lemma {:induction false} InsideOneMore<V>(d: seq<(ProductRef, V)>, s: set<ProductRef>, k: ProductRef, amount: V -> real)
    requires UniqueKeys(d) && k !in s
    ensures AmountSumWhere(d, {k} + s, true, amount) == AmountSumWhere(d, s, true, amount) + AmountAt(d, k, amount)
  {
    if |d| > 0 {
      if d[0].0 == k {
        InsideAbsent(d[1..], s, k, amount);
      } else {
        InsideOneMore(d[1..], s, k, amount);
      }
    }
  }

  /** A key `d` does not hold makes no difference to the filter. */
  lemma {:induction false} InsideAbsent<V>(d: seq<(ProductRef, V)>, s: set<ProductRef>, k: ProductRef, amount: V -> real)
    requires k !in Keys(d)
    ensures AmountSumWhere(d, {k} + s, true, amount) == AmountSumWhere(d, s, true, amount)
  {
    if |d| > 0 {
      InsideAbsent(d[1..], s, k, amount);
    }
  }
}
