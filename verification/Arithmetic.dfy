/** Division with remainder. */
module Arithmetic {

  lemma MultipleGrows(n: int, d: int)
    requires n >= 1
    ensures d >= 1 ==> n * d >= n
    ensures d <= -1 ==> n * d <= -n
  {
  }

  lemma OneMore(n: int, d: int)
    ensures (n + 1) * d == n * d + d
  {
  }

  /** Quotient and remainder are unique. */
  lemma DivModUnique(x: int, q: int, r: int, n: int)
    requires n >= 1 && 0 <= r < n && x == n * q + r
    ensures x / n == q && x % n == r
  {
    var d := q - x / n;
    MultipleGrows(n, d);
  }

  /** Counting up by one either advances the remainder or wraps it and advances the quotient. */
  lemma NextDivMod(k: int, n: int)
    requires n >= 1
    ensures k % n + 1 < n ==> (k + 1) / n == k / n && (k + 1) % n == k % n + 1
    ensures k % n + 1 == n ==> (k + 1) / n == k / n + 1 && (k + 1) % n == 0
  {
    var q, r := k / n, k % n;
    if r + 1 < n {
      DivModUnique(k + 1, q, r + 1, n);
    } else {
      DivModUnique(k + 1, q + 1, 0, n);
    }
  }
}
