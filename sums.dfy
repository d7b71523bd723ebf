/**
 * Sums over finite sets. The modelled Java code adds values up while
 * iterating a `HashSet` or a map's key set in an unspecified order;
 * `SetSum` is that total, and `SetSumRemove` is what lets a loop take the
 * elements in any order.
 */
module Sums {

  /** The sum of `f` over the elements of `s`. */
  ghost function SetSum<T>(s: set<T>, f: T -> int): int
    decreases s
  {
    if s == {} then 0 else var x :| x in s; f(x) + SetSum(s - {x}, f)
  }

  /** Some element of a non-empty set: the next element a set iteration visits. */
  method Pick<T>(s: set<T>) returns (x: T)
    requires s != {}
    ensures x in s
  {
    x :| x in s;
  }

  /** Any element can be taken out first. */
  lemma SetSumRemove<T>(s: set<T>, f: T -> int, x: T)
    requires x in s
    ensures SetSum(s, f) == f(x) + SetSum(s - {x}, f)
    decreases s
  {
    var y :| y in s && SetSum(s, f) == f(y) + SetSum(s - {y}, f);
    if y != x {
      SetSumRemove(s - {y}, f, x);
      SetSumRemove(s - {x}, f, y);
      assert s - {y} - {x} == s - {x} - {y};
    }
  }

  /** Adding a new element adds its value. */
  lemma SetSumInsert<T>(s: set<T>, f: T -> int, x: T)
    requires x !in s
    ensures SetSum(s + {x}, f) == SetSum(s, f) + f(x)
  {
    SetSumRemove(s + {x}, f, x);
    assert s + {x} - {x} == s;
  }

  /** Functions that agree on `s` have the same sum over `s`. */
  lemma {:induction false} SetSumCongruent<T>(s: set<T>, f: T -> int, g: T -> int)
    requires forall x :: x in s ==> f(x) == g(x)
    ensures SetSum(s, f) == SetSum(s, g)
    decreases s
  {
    if s != {} {
      var x :| x in s;
      SetSumRemove(s, f, x);
      SetSumRemove(s, g, x);
      SetSumCongruent(s - {x}, f, g);
    }
  }

  /** The sum of a pointwise sum is the sum of the sums. */
  lemma {:induction false} SetSumAdd<T>(s: set<T>, f: T -> int, g: T -> int, h: T -> int)
    requires forall x :: x in s ==> h(x) == f(x) + g(x)
    ensures SetSum(s, h) == SetSum(s, f) + SetSum(s, g)
    decreases s
  {
    if s != {} {
      var x :| x in s;
      SetSumRemove(s, f, x);
      SetSumRemove(s, g, x);
      SetSumRemove(s, h, x);
      SetSumAdd(s - {x}, f, g, h);
    }
  }

  /** A sum of non-negative values is non-negative. */
  lemma {:induction false} SetSumNonNegative<T>(s: set<T>, f: T -> int)
    requires forall x :: x in s ==> f(x) >= 0
    ensures SetSum(s, f) >= 0
    decreases s
  {
    if s != {} {
      var x :| x in s;
      SetSumRemove(s, f, x);
      SetSumNonNegative(s - {x}, f);
    }
  }

  /** A function that is zero on `s` except for value `v` at `x` sums to `v` when `x` is in `s`. */
  lemma SetSumSingle<T>(s: set<T>, f: T -> int, x: T, v: int)
    requires forall y :: y in s ==> f(y) == if y == x then v else 0
    ensures SetSum(s, f) == if x in s then v else 0
  {
    if x in s {
      SetSumRemove(s, f, x);
      SetSumZero(s - {x}, f);
    } else {
      SetSumZero(s, f);
    }
  }

  /** The sum of zeros. */
  lemma {:induction false} SetSumZero<T>(s: set<T>, f: T -> int)
    requires forall y :: y in s ==> f(y) == 0
    ensures SetSum(s, f) == 0
    decreases s
  {
    if s != {} {
      var x :| x in s;
      SetSumRemove(s, f, x);
      SetSumZero(s - {x}, f);
    }
  }
}
