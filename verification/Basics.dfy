/** What the other modules share. */
module Basics {

  datatype Option<+T> = None | Some(value: T)

  /** Assigning to this key of an object sets its prototype, if the value can be one, and adds
      no entry. */
  const PROTO := "__proto__"

  function Pow2(n: nat): nat {
    if n == 0 then 1 else 2 * Pow2(n - 1)
  }

  function Min(a: int, b: int): int {
    if a <= b then a else b
  }

  function Product(a: real, b: real): real {
    a * b
  }

  lemma SignOf(a: real, x: real)
    requires a >= 0.0
    ensures x >= 0.0 ==> Product(a, x) >= 0.0
    ensures x <= 0.0 ==> Product(a, x) <= 0.0
    ensures a > 0.0 && x > 0.0 ==> Product(a, x) > 0.0
  {
  }

  lemma Parts(a: real, b: real, x: real)
    requires a + b == 1.0
    ensures Product(a, x) + Product(b, x) == x
  {
    assert a * x + b * x == (a + b) * x;
  }

  /** A fraction of something. */
  function Share(fraction: real, c: real): (x: real)
    requires 0.0 <= fraction < 1.0
    ensures x == Product(fraction, c)
    ensures (c > 0.0 ==> 0.0 <= x < c) && (c <= 0.0 ==> c <= x <= 0.0)
  {
    Parts(fraction, 1.0 - fraction, c);
    SignOf(fraction, c);
    SignOf(1.0 - fraction, c);
    Product(fraction, c)
  }

  lemma OneMore(n: int, x: int)
    ensures (n + 1) * x == n * x + x
  {
  }

  lemma Doubling(b: int, x: int)
    ensures b * (2 * x - 1) == b * (x - 1) + b * x
  {
  }

  lemma Regroup<T>(a: seq<T>, b: seq<T>, c: seq<T>)
    ensures (a + b) + c == a + (b + c)
  {
  }

  function Sum(f: nat -> nat, n: nat): nat {
    if n == 0 then 0 else Sum(f, n - 1) + f(n - 1)
  }

  lemma {:induction false} SumDrops(f: nat -> nat, g: nat -> nat, n: nat, i: nat, d: nat)
    requires forall k: nat :: k < n ==> g(k) <= f(k)
    requires i < n && g(i) + d <= f(i)
    ensures Sum(g, n) + d <= Sum(f, n)
  {
    if i == n - 1 {
      SumNoMore(f, g, n - 1);
    } else {
      SumDrops(f, g, n - 1, i, d);
    }
  }

  lemma {:induction false} SumNoMore(f: nat -> nat, g: nat -> nat, n: nat)
    requires forall k: nat :: k < n ==> g(k) <= f(k)
    ensures Sum(g, n) <= Sum(f, n)
  {
    if n > 0 {
      SumNoMore(f, g, n - 1);
    }
  }
}
