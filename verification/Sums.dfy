/** Sums of an integer-valued function over 0, 1, ..., n - 1. Tables are sequences whose row
    numbers play the part of primary keys, so every SQL SUM becomes a Total over row numbers. */
module Sums {
  function Total(n: nat, f: nat -> int): int {
    if n == 0 then 0 else Total(n - 1, f) + f(n - 1)
  }

  lemma {:induction false} TotalCong(n: nat, f: nat -> int, g: nat -> int)
    requires forall i: nat :: i < n ==> f(i) == g(i)
    ensures Total(n, f) == Total(n, g)
  {
    if n > 0 { TotalCong(n - 1, f, g); }
  }

  /** Rows past n that contribute nothing do not change the sum. */
  lemma {:induction false} TotalGrow(n: nat, m: nat, f: nat -> int, g: nat -> int)
    requires n <= m
    requires forall i: nat :: i < n ==> f(i) == g(i)
    requires forall i: nat :: n <= i < m ==> g(i) == 0
    ensures Total(m, g) == Total(n, f)
  {
    if m == n { TotalCong(n, f, g); } else { TotalGrow(n, m - 1, f, g); }
  }

  lemma {:induction false} TotalZero(n: nat, f: nat -> int)
    requires forall i: nat :: i < n ==> f(i) == 0
    ensures Total(n, f) == 0
  {
    if n > 0 { TotalZero(n - 1, f); }
  }

  lemma TotalTwo(f: nat -> int)
    ensures Total(2, f) == f(0) + f(1)
  {
    assert Total(1, f) == Total(0, f) + f(0);
  }

  /** A sum with one row that is not zero. */
  lemma {:induction false} TotalOne(n: nat, f: nat -> int, k: nat)
    requires k < n && forall i: nat :: i < n && i != k ==> f(i) == 0
    ensures Total(n, f) == f(k)
  {
    if k == n - 1 { TotalZero(n - 1, f); } else { TotalOne(n - 1, f, k); }
  }

  /** Two functions that differ at one row only have sums that differ by that row. */
  lemma {:induction false} TotalChange(n: nat, k: nat, f: nat -> int, g: nat -> int)
    requires k < n
    requires forall i: nat :: i < n && i != k ==> f(i) == g(i)
    ensures Total(n, g) == Total(n, f) - f(k) + g(k)
  {
    if k == n - 1 { TotalCong(n - 1, f, g); } else { TotalChange(n - 1, k, f, g); }
  }

  lemma {:induction false} TotalAdd(n: nat, f: nat -> int, g: nat -> int, h: nat -> int)
    requires forall i: nat :: i < n ==> h(i) == f(i) + g(i)
    ensures Total(n, h) == Total(n, f) + Total(n, g)
  {
    if n > 0 { TotalAdd(n - 1, f, g, h); }
  }

  /** A block of m rows appended after n rows. */
  lemma {:induction false} TotalSplit(n: nat, m: nat, f: nat -> int, g: nat -> int)
    requires forall i: nat :: i < m ==> g(i) == f(n + i)
    ensures Total(n + m, f) == Total(n, f) + Total(m, g)
  {
    if m > 0 { TotalSplit(n, m - 1, f, g); }
  }

  /** A block of m rows appended after n rows that contribute nothing. */
  lemma TotalTail(n: nat, m: nat, f: nat -> int, g: nat -> int)
    requires forall i: nat :: i < n ==> f(i) == 0
    requires forall i: nat :: i < m ==> g(i) == f(n + i)
    ensures Total(n + m, f) == Total(m, g)
  {
    TotalZero(n, f);
    TotalSplit(n, m, f, g);
  }

  /** Exchanging the two summation signs of a double sum. */
  lemma {:induction false} TotalSwap(n: nat, m: nat, f: (nat, nat) -> int,
                                     rows: nat -> int, columns: nat -> int)
    requires forall i: nat :: i < n ==> rows(i) == Total(m, (j: nat) => f(i, j))
    requires forall j: nat :: j < m ==> columns(j) == Total(n, (i: nat) => f(i, j))
    ensures Total(n, rows) == Total(m, columns)
  {
    if n == 0 {
      TotalZero(m, columns);
    } else {
      var shorter := (j: nat) => Total(n - 1, (i: nat) => f(i, j));
      TotalSwap(n - 1, m, f, rows, shorter);
      TotalAdd(m, shorter, (j: nat) => f(n - 1, j), columns);
    }
  }
}
