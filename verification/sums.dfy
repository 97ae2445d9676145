/** Finite sums over the ids 0, 1, ..., n - 1. */
module Sums {

  function Sum(f: nat -> int, n: nat): int {
    if n == 0 then 0 else Sum(f, n - 1) + f(n - 1)
  }

  lemma {:induction false} SumSame(f: nat -> int, g: nat -> int, n: nat)
    requires forall k :: 0 <= k < n ==> f(k) == g(k)
    ensures Sum(f, n) == Sum(g, n)
  {
    if n > 0 { SumSame(f, g, n - 1); }
  }

  /** Changing one term changes the sum by as much. */
  lemma {:induction false} SumChange(f: nat -> int, g: nat -> int, n: nat, k: nat)
    requires k < n && forall j :: 0 <= j < n && j != k ==> f(j) == g(j)
    ensures Sum(g, n) == Sum(f, n) + g(k) - f(k)
  {
    if k == n - 1 { SumSame(f, g, n - 1); } else { SumChange(f, g, n - 1, k); }
  }

  lemma {:induction false} SumAtMost(f: nat -> int, g: nat -> int, n: nat)
    requires forall k :: 0 <= k < n ==> f(k) <= g(k)
    ensures Sum(f, n) <= Sum(g, n)
  {
    if n > 0 { SumAtMost(f, g, n - 1); }
  }

  lemma {:induction false} SumLess(f: nat -> int, g: nat -> int, n: nat, k: nat)
    requires k < n && f(k) < g(k) && forall j :: 0 <= j < n ==> f(j) <= g(j)
    ensures Sum(f, n) < Sum(g, n)
  {
    if k == n - 1 { SumAtMost(f, g, n - 1); } else { SumLess(f, g, n - 1, k); }
  }

  lemma {:induction false} SumAtLeastTerm(f: nat -> int, n: nat, k: nat)
    requires k < n && forall j :: 0 <= j < n ==> f(j) >= 0
    ensures Sum(f, n) >= f(k) && Sum(f, n) >= 0
  {
    if k == n - 1 {
      if n > 1 { SumAtLeastTerm(f, n - 1, 0); }
    } else {
      SumAtLeastTerm(f, n - 1, k);
    }
  }

  lemma {:induction false} SumZero(f: nat -> int, n: nat)
    requires forall k :: 0 <= k < n ==> f(k) == 0
    ensures Sum(f, n) == 0
  {
    if n > 0 { SumZero(f, n - 1); }
  }

  lemma {:induction false} SumPlus(f: nat -> int, g: nat -> int, h: nat -> int, n: nat)
    requires forall k :: 0 <= k < n ==> h(k) == f(k) + g(k)
    ensures Sum(h, n) == Sum(f, n) + Sum(g, n)
  {
    if n > 0 { SumPlus(f, g, h, n - 1); }
  }

  /** Later terms only add when they are not negative. */
  lemma {:induction false} SumGrows(f: nat -> int, n: nat, m: nat)
    requires n <= m && forall k: nat :: n <= k < m ==> f(k) >= 0
    ensures Sum(f, n) <= Sum(f, m)
  {
    if n < m { SumGrows(f, n, m - 1); }
  }
}
