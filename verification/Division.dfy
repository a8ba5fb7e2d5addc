/** Quotients and remainders by a divisor that is not a constant. */
module Division {
  lemma {:induction false} ModAdd(a: int, b: int, n: nat)
    requires n > 0
    ensures (a % n + b) % n == (a + b) % n
  {
    var q := a / n;
    assert a == n * q + a % n;
    ModShift(a % n + b, q, n);
  }

  lemma {:induction false} ModShift(a: int, q: int, n: nat)
    requires n > 0
    ensures (a + n * q) % n == a % n
  {
    var r, k := a % n, a / n;
    assert a + n * q == n * (k + q) + r;
    ModUnique(a + n * q, k + q, r, n);
  }

  lemma {:induction false} ModUnique(x: int, q: int, r: int, n: nat)
    requires n > 0 && x == n * q + r && 0 <= r < n
    ensures x % n == r
  {
    var d := x / n - q;
    assert n * (x / n) + x % n == n * q + r;
    assert n * d == r - x % n;
    MultipleFar(n, d);
  }

  lemma MultipleFar(n: int, d: int)
    requires n > 0
    ensures d >= 1 ==> n * d >= n
    ensures d <= -1 ==> n * d <= -n
  {
  }

  /** Numbers less than `n` apart differ modulo `n`. */
  lemma {:induction false} ModDistinct(a: nat, b: nat, n: nat)
    requires n > 0 && a < b < a + n
    ensures a % n != b % n
  {
    var d := b - a;
    ModAdd(a, d, n);
    if a % n + d < n {
      ModUnique(a % n + d, 0, a % n + d, n);
    } else {
      ModUnique(a % n + d, 1, a % n + d - n, n);
    }
  }

  lemma AdvanceMod(h: nat, q: nat, n: nat)
    requires n > 0 && q > 0
    ensures ((h + 1) % n + (q - 1)) % n == (h + q) % n
  {
    ModAdd(h + 1, q - 1, n);
  }

  lemma DivMono(a: nat, b: nat, n: nat)
    requires 0 < n && a <= b
    ensures a / n <= b / n
  {
    var d := a / n - b / n;
    assert n * (a / n) + a % n == a && n * (b / n) + b % n == b;
    assert n * d == a - a % n - (b - b % n);
    MultipleFar(n, d);
  }

  lemma DivExact(n: nat, q: nat)
    requires 0 < n
    ensures (n * q) / n == q
  {
    var d := (n * q) / n - q;
    assert n * d == -((n * q) % n);
    MultipleFar(n, d);
  }

  // ---- Equal shares --------------------------------------------------------

  /** Where share `p` of `count` items in `n` shares begins. */
  function Share(count: nat, n: nat, p: nat): nat
    requires 0 < n
  {
    count * p / n
  }

  lemma {:induction false} ShareMono(count: nat, n: nat, a: nat, b: nat)
    requires 0 < n && a <= b <= n
    ensures Share(count, n, a) <= Share(count, n, b) <= count
    ensures Share(count, n, 0) == 0 && Share(count, n, n) == count
  {
    ShareStep(count, n, a, b);
    ShareStep(count, n, b, n);
    ShareEnds(count, n);
  }

  lemma ShareStep(count: nat, n: nat, a: nat, b: nat)
    requires 0 < n && a <= b
    ensures Share(count, n, a) <= Share(count, n, b)
  {
    ScaleMono(count, a, b);
    DivMono(count * a, count * b, n);
  }

  lemma ShareEnds(count: nat, n: nat)
    requires 0 < n
    ensures Share(count, n, 0) == 0 && Share(count, n, n) == count
  {
    DivExact(n, count);
    DivExact(n, 0);
    assert count * n == n * count && count * 0 == n * 0;
  }

  lemma ScaleMono(c: nat, a: nat, b: nat)
    requires a <= b
    ensures c * a <= c * b
  {
    assert c * b == c * a + c * (b - a);
  }

  /** The shares leave no gap and do not overlap. */
  lemma {:induction false} ShareOwner(count: nat, n: nat, c: nat, k: nat) returns (p: nat)
    requires 0 < n && k <= n && c < Share(count, n, k)
    ensures p < k && Share(count, n, p) <= c < Share(count, n, p + 1)
    ensures forall q: nat :: q < n && Share(count, n, q) <= c < Share(count, n, q + 1) ==> q == p
    decreases k
  {
    ShareMono(count, n, 0, 0);
    if k > 0 && Share(count, n, k - 1) <= c {
      p := k - 1;
    } else {
      p := ShareOwner(count, n, c, k - 1);
    }
    forall q: nat | q < n && Share(count, n, q) <= c < Share(count, n, q + 1) ensures q == p {
      if q < p { ShareMono(count, n, q + 1, p); }
      if p < q { ShareMono(count, n, p + 1, q); }
    }
  }
}
