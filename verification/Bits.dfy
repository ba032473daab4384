/** Bitwise "or" on unbounded two's-complement integers, as the search's state keys use it. */
module Bits {

  /** Distance of an integer from the two fixed points 0 and -1 of halving. */
  function Span(a: int): nat {
    if a >= 0 then a else -a - 1
  }

  function Or(a: int, b: int): int
    decreases Span(a) + Span(b)
  {
    if Span(a) + Span(b) == 0 then
      if a == -1 || b == -1 then -1 else 0
    else
      2 * Or(a / 2, b / 2) + (if a % 2 == 1 || b % 2 == 1 then 1 else 0)
  }

  function Pow2(n: nat): (p: nat)
    ensures p > 0
  {
    if n == 0 then 1 else 2 * Pow2(n - 1)
  }

  /** Or-ing bits below a shifted word is addition, for every word, negative ones included. */
  lemma {:induction false} OrBelowShiftIsSum(word: int, n: nat, low: int)
    requires 0 <= low < Pow2(n)
    ensures Or(word * Pow2(n), low) == word * Pow2(n) + low
  {
    if n == 0 {
      OrZero(word);
    } else {
      var p := Pow2(n - 1);
      assert word * Pow2(n) == 2 * (word * p) by {
        assert Pow2(n) == 2 * p;
      }
      OrBelowShiftIsSum(word, n - 1, low / 2);
      OrHalves(word * Pow2(n), low);
    }
  }

  lemma OrHalves(a: int, b: int)
    ensures Or(a, b) == 2 * Or(a / 2, b / 2) + (if a % 2 == 1 || b % 2 == 1 then 1 else 0)
  {
    if Span(a) + Span(b) == 0 {
      assert a / 2 == a && b / 2 == b;
    }
  }

  lemma {:induction false} OrZero(a: int)
    ensures Or(a, 0) == a
    decreases Span(a)
  {
    if Span(a) != 0 {
      OrZero(a / 2);
    }
  }

  /** The sign of an "or": negative exactly when an operand is. */
  lemma {:induction false} OrSign(a: int, b: int)
    ensures Or(a, b) < 0 <==> a < 0 || b < 0
    decreases Span(a) + Span(b)
  {
    if Span(a) + Span(b) != 0 {
      OrSign(a / 2, b / 2);
    }
  }

  lemma {:induction false} OrCommutes(a: int, b: int)
    ensures Or(a, b) == Or(b, a)
    decreases Span(a) + Span(b)
  {
    if Span(a) + Span(b) != 0 {
      OrCommutes(a / 2, b / 2);
    }
  }
}
