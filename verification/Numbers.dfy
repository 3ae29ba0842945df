/** Facts about integers that Dafny has to be told. */
module Numbers {
  function Min(a: int, b: int): int { if a <= b then a else b }

  lemma MulMono(a: nat, b: nat, n: nat)
    ensures a <= b ==> a * n <= b * n
    ensures a < b ==> a * n + n <= b * n
  {
    var d := b - a;
    assert b * n == a * n + d * n;
    if d >= 1 { assert d * n == n + (d - 1) * n; }
  }

  lemma CeilDiv(a: nat, n: nat, p: nat)
    requires n > 0 && p > 0 && (p - 1) * n <= a <= p * n && (p > 1 ==> (p - 1) * n < a)
    ensures p == if a == 0 then 1 else (a + n - 1) / n
  {
    assert (p - 1) * n == p * n - n;
    MulMono(0, p - 1, n);
    if a > 0 { DivUnique(a + n - 1, n, p); }
  }

  lemma DivUnique(x: nat, n: nat, p: nat)
    requires n > 0 && p * n <= x < p * n + n
    ensures x / n == p
  {
    var d := x / n;
    assert d * n <= x < d * n + n by { DivBounds(x, n); }
    MulMono(d, p, n);
    MulMono(p, d, n);
  }

  lemma DivBounds(x: nat, n: nat)
    requires n > 0
    ensures x / n * n <= x < x / n * n + n
  {
    assert x == x / n * n + x % n;
  }
}
