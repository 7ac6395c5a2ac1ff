/** Integer helpers: Euclid's loop, the capped least common multiple, and the arithmetic facts
    about quotients and remainders that the other modules share. */
module Numbers {

  const UINT32_LIMIT := 0x1_0000_0000
  const UINT64_LIMIT := 0x1_0000_0000_0000_0000

  function Min(a: int, b: int): int {
    if a <= b then a else b
  }

  function Max(a: int, b: int): int {
    if a >= b then a else b
  }

  predicate Divides(d: nat, n: int) {
    d > 0 && n % d == 0
  }

  // ---- quotients and remainders -------------------------------------------------------------

  /** A larger factor gives a product larger by at least one multiplicand. */
  lemma MulStrict(d: int, a: int, b: int)
    requires d > 0 && a < b
    ensures d * a + d <= d * b
  {
    assert d * (b - a - 1) >= 0;
    assert d * b == d * a + d + d * (b - a - 1);
  }

  lemma MulWeak(d: int, a: int, b: int)
    requires d >= 0 && a <= b
    ensures d * a <= d * b
  {
    assert d * b == d * a + d * (b - a);
  }

  lemma CancelFactor(g: int, m: int, n: int)
    requires g > 0 && g * m == g * n
    ensures m == n
  {
    if m > n {
      MulStrict(g, n, m);
    } else if m < n {
      MulStrict(g, m, n);
    }
  }

  /** The quotient and remainder are determined by the division equation. */
  lemma DivModUnique(n: int, d: int, q: int, r: int)
    requires d > 0 && 0 <= r < d && n == d * q + r
    ensures n / d == q && n % d == r
  {
    var q', r' := n / d, n % d;
    QuotientUnique(d, q, r, q', r');
  }

  lemma QuotientUnique(d: int, q: int, r: int, q': int, r': int)
    requires d > 0 && 0 <= r < d && 0 <= r' < d
    requires d * q + r == d * q' + r'
    ensures q == q' && r == r'
  {
    if q < q' {
      MulStrict(d, q, q');
    } else if q' < q {
      MulStrict(d, q', q);
    }
  }

  lemma MultipleDivides(d: nat, k: int)
    requires d > 0
    ensures Divides(d, d * k) && d * k / d == k
  {
    DivModUnique(d * k, d, k, 0);
  }

  lemma DividesProduct(d: nat, n: int) returns (k: int)
    requires Divides(d, n)
    ensures n == d * k && k == n / d
  {
    k := n / d;
  }

  lemma QuotientMonotone(d: int, q: int, r: int, q': int, r': int)
    requires d > 0 && 0 <= r < d && 0 <= r' < d
    requires d * q + r <= d * q' + r'
    ensures q <= q'
  {
    if q' < q {
      MulStrict(d, q', q);
    }
  }

  lemma DividesTransitive(a: nat, b: nat, c: int)
    requires Divides(a, b) && Divides(b, c)
    ensures Divides(a, c)
  {
    var k := DividesProduct(a, b);
    var j := DividesProduct(b, c);
    assert c == a * (k * j) by {
      assert (a * k) * j == a * (k * j);
    }
    MultipleDivides(a, k * j);
  }

  lemma DividesLinear(d: nat, a: int, b: int, x: int, y: int)
    requires Divides(d, a) && Divides(d, b)
    ensures Divides(d, a * x + b * y)
  {
    var j := DividesProduct(d, a);
    var k := DividesProduct(d, b);
    assert a * x + b * y == d * (j * x + k * y) by {
      assert (d * j) * x == d * (j * x);
      assert (d * k) * y == d * (k * y);
      assert d * (j * x + k * y) == d * (j * x) + d * (k * y);
    }
    MultipleDivides(d, j * x + k * y);
  }

  lemma DividesAtMost(d: nat, n: nat)
    requires Divides(d, n) && n > 0
    ensures d <= n
  {
    var k := DividesProduct(d, n);
    if k <= 0 {
      MulWeak(d, k, 0);
    } else {
      MulWeak(d, 1, k);
    }
  }

  // ---- greatest common divisor --------------------------------------------------------------

  function Gcd(a: nat, b: nat): nat
    decreases b
  {
    if b == 0 then a else Gcd(b, a % b)
  }

  lemma BezoutStep(a: int, b: int, q: int, r: int, x: int, y: int)
    requires a == b * q + r
    ensures a * y + b * (x - q * y) == b * x + r * y
  {
    assert a * y == (b * q) * y + r * y;
    assert b * (x - q * y) == b * x - b * (q * y);
    assert (b * q) * y == b * (q * y);
  }

  /** The value of `Gcd` is a common divisor, and it is an integer combination of its arguments. */
  lemma {:induction false} Bezout(a: nat, b: nat) returns (x: int, y: int)
    requires a > 0 || b > 0
    ensures Gcd(a, b) > 0
    ensures Divides(Gcd(a, b), a) && Divides(Gcd(a, b), b)
    ensures Gcd(a, b) == a * x + b * y
    decreases b
  {
    if b == 0 {
      x, y := 1, 0;
      MultipleDivides(a, 1);
      MultipleDivides(a, 0);
    } else {
      var x', y' := Bezout(b, a % b);
      var g := Gcd(a, b);
      x, y := y', x' - (a / b) * y';
      BezoutStep(a, b, a / b, a % b, x', y');
      DividesLinear(g, b, a % b, a / b, 1);
    }
  }

  /** `Gcd` is the greatest common divisor: every common divisor divides it. */
  lemma GcdIsGreatest(a: nat, b: nat, d: nat)
    requires a > 0 || b > 0
    ensures Gcd(a, b) > 0 && Divides(Gcd(a, b), a) && Divides(Gcd(a, b), b)
    ensures Divides(d, a) && Divides(d, b) ==> Divides(d, Gcd(a, b)) && d <= Gcd(a, b)
  {
    var x, y := Bezout(a, b);
    if Divides(d, a) && Divides(d, b) {
      DividesLinear(d, a, b, x, y);
      DividesAtMost(d, Gcd(a, b));
    }
  }

  /** Euclid's loop terminates with the greatest common divisor. */
  method ComputeGcd(a0: nat, b0: nat) returns (g: nat)
    ensures g == Gcd(a0, b0)
    ensures a0 > 0 || b0 > 0 ==>
              && Divides(g, a0) && Divides(g, b0)
              && forall d: nat :: Divides(d, a0) && Divides(d, b0) ==> d <= g
  {
    var a, b := a0, b0;
    while b != 0
      invariant Gcd(a, b) == Gcd(a0, b0)
      decreases b
    {
      var temp := b;
      b := a % b;
      a := temp;
    }
    g := a;
    if a0 > 0 || b0 > 0 {
      forall d: nat ensures Divides(g, a0) && Divides(g, b0)
        ensures Divides(d, a0) && Divides(d, b0) ==> d <= g
      {
        GcdIsGreatest(a0, b0, d);
      }
    }
  }

  // ---- least common multiple ----------------------------------------------------------------

  function Lcm(a: nat, b: nat): nat
    requires a > 0 && b > 0
  {
    var g := Gcd(a, b);
    (if g == 0 then 0 else a / g) * b
  }

  /** `Lcm` is a positive common multiple and divides every other common multiple. */
  lemma LcmIsLeast(a: nat, b: nat, m: int)
    requires a > 0 && b > 0
    ensures Lcm(a, b) > 0 && Divides(a, Lcm(a, b)) && Divides(b, Lcm(a, b))
    ensures Divides(a, m) && Divides(b, m) ==> Divides(Lcm(a, b), m)
  {
    var x, y := Bezout(a, b);
    var g := Gcd(a, b);
    var a' := DividesProduct(g, a);
    var b' := DividesProduct(g, b);
    PositiveFactor(g, a');
    PositiveFactor(g, b');
    var l := Lcm(a, b);
    assert l == a' * b;
    assert l == a * b' by {
      assert a' * (g * b') == (g * a') * b';
    }
    MultipleDivides(a, b');
    MultipleDivides(b, a');
    assert l == b * a';
    assert l > 0;
    if Divides(a, m) && Divides(b, m) {
      LcmDividesMultiple(a, b, m, g, a', b', x, y);
    }
  }

  lemma PositiveFactor(g: int, k: int)
    requires g > 0 && g * k > 0
    ensures k > 0
  {
    if k <= 0 {
      MulWeak(g, k, 0);
    }
  }

  lemma LcmDividesMultiple(a: nat, b: nat, m: int, g: nat, a': int, b': int, x: int, y: int)
    requires Divides(a, m) && Divides(b, m) && g > 0 && a' > 0 && b > 0
    requires a == g * a' && b == g * b' && g == a * x + b * y
    ensures a' * b > 0 && Divides(a' * b, m)
  {
    var p := DividesProduct(a, m);
    var q := DividesProduct(b, m);
    var l := a' * b;
    var z := q * x + p * y;
    calc {
      g * m;
      (a * x + b * y) * m;
      (a * x) * m + (b * y) * m;
      { assert (a * x) * m == (a * x) * (b * q) == (a * b) * (q * x); }
      { assert (b * y) * m == (b * y) * (a * p) == (a * b) * (p * y); }
      (a * b) * (q * x) + (a * b) * (p * y);
      (a * b) * z;
      { assert a * b == (g * a') * b == g * l; }
      (g * l) * z;
      g * (l * z);
    }
    CancelFactor(g, m, l * z);
    MultipleDivides(l, q * x + p * y);
  }

  /** The capped least common multiple on 32-bit values: the 64-bit intermediate cannot overflow,
      and a zero argument gives zero. */
  method SafeLcm(a: nat, b: nat, cap: nat) returns (r: nat)
    requires a < UINT32_LIMIT && b < UINT32_LIMIT && cap < UINT32_LIMIT
    ensures a == 0 || b == 0 ==> r == 0
    ensures a > 0 && b > 0 ==> r == Min(Lcm(a, b), cap)
    ensures r < UINT32_LIMIT
  {
    hide Gcd, Lcm, Divides;
    if a == 0 || b == 0 {
      return 0;
    }
    var g := ComputeGcd(a, b);
    LcmQuotient(a, b, g);
    var result := a / g * b;
    if result > cap {
      return cap;
    }
    return result;
  }

  lemma LcmQuotient(a: nat, b: nat, g: nat)
    requires 0 < a < UINT32_LIMIT && 0 < b < UINT32_LIMIT && g == Gcd(a, b)
    ensures g > 0 && 0 < a / g * b < UINT64_LIMIT && a / g * b == Lcm(a, b)
  {
    GcdIsGreatest(a, b, 1);
    LcmIsLeast(a, b, 0);
    QuotientAtMost(g, a, a / g, a % g);
    ProductInRange(a / g, b);
  }

  lemma ProductInRange(q: int, b: int)
    requires 0 <= q < UINT32_LIMIT && 0 <= b < UINT32_LIMIT
    ensures q * b < UINT64_LIMIT
  {
    MulWeak(q, b, UINT32_LIMIT);
  }

  lemma QuotientAtMost(g: int, a: int, q: int, r: int)
    requires g > 0 && a >= 0 && a == g * q + r && 0 <= r < g
    ensures 0 <= q <= a
  {
    if q < 0 {
      MulStrict(g, q, 0);
    } else {
      MulWeak(q, 1, g);
    }
  }

  // ---- folds over many periods --------------------------------------------------------------

  predicate AllPositive(ps: seq<nat>) {
    forall i :: 0 <= i < |ps| ==> ps[i] > 0
  }

  function LcmFrom(start: nat, ps: seq<nat>): (r: nat)
    requires start > 0 && AllPositive(ps)
    ensures r > 0
    decreases |ps|
  {
    if ps == [] then start
    else
      var prefix := LcmFrom(start, ps[..|ps| - 1]);
      LcmIsLeast(prefix, ps[|ps| - 1], 0);
      Lcm(prefix, ps[|ps| - 1])
  }

  function LcmAll(ps: seq<nat>): (r: nat)
    requires AllPositive(ps)
    ensures r > 0
  {
    LcmFrom(1, ps)
  }

  predicate CommonMultiple(start: nat, ps: seq<nat>, m: int) {
    Divides(start, m) && forall i :: 0 <= i < |ps| ==> Divides(ps[i], m)
  }

  /** The fold is a common multiple, and divides every common multiple. */
  lemma {:induction false} LcmFromIsLeast(start: nat, ps: seq<nat>, m: int)
    requires start > 0 && AllPositive(ps)
    ensures CommonMultiple(start, ps, LcmFrom(start, ps))
    ensures CommonMultiple(start, ps, m) ==> Divides(LcmFrom(start, ps), m)
    decreases |ps|
  {
    if ps == [] {
      MultipleDivides(start, 1);
    } else {
      var n := |ps| - 1;
      var front := ps[..n];
      var prefix := LcmFrom(start, front);
      LcmFromIsLeast(start, front, m);
      LcmIsLeast(prefix, ps[n], m);
      var all := LcmFrom(start, ps);
      DividesTransitive(start, prefix, all);
      forall i | 0 <= i < |ps| ensures Divides(ps[i], all) {
        if i < n {
          assert ps[i] == front[i];
          DividesTransitive(ps[i], prefix, all);
        }
      }
      if CommonMultiple(start, ps, m) {
        assert CommonMultiple(start, front, m);
      }
    }
  }

  lemma MutualDivisorsEqual(a: nat, b: nat)
    requires a > 0 && b > 0 && Divides(a, b) && Divides(b, a)
    ensures a == b
  {
    DividesAtMost(a, b);
    DividesAtMost(b, a);
  }

  /** The order and the repetition of the periods do not matter. */
  lemma LcmOrderIndependent(ps: seq<nat>, qs: seq<nat>)
    requires AllPositive(ps) && AllPositive(qs)
    requires forall p :: p in ps <==> p in qs
    ensures LcmAll(ps) == LcmAll(qs)
  {
    LcmFromIsLeast(1, ps, LcmAll(qs));
    LcmFromIsLeast(1, qs, LcmAll(ps));
    assert CommonMultiple(1, qs, LcmAll(ps)) by {
      forall i | 0 <= i < |qs| ensures Divides(qs[i], LcmAll(ps)) {
        assert qs[i] in ps;
      }
    }
    assert CommonMultiple(1, ps, LcmAll(qs)) by {
      forall i | 0 <= i < |ps| ensures Divides(ps[i], LcmAll(qs)) {
        assert ps[i] in qs;
      }
    }
    MutualDivisorsEqual(LcmAll(ps), LcmAll(qs));
  }

  lemma {:induction false} LcmFromConcat(start: nat, ps: seq<nat>, qs: seq<nat>)
    requires start > 0 && AllPositive(ps) && AllPositive(qs)
    ensures AllPositive(ps + qs)
    ensures LcmFrom(start, ps + qs) == LcmFrom(LcmFrom(start, ps), qs)
    decreases |qs|
  {
    if qs == [] {
      assert ps + qs == ps;
    } else {
      var n := |qs| - 1;
      LcmFromConcat(start, ps, qs[..n]);
      assert (ps + qs)[..|ps + qs| - 1] == ps + qs[..n];
      assert (ps + qs)[|ps + qs| - 1] == qs[n];
    }
  }

  /** Folding never shrinks the running value, so a value that reached the cap stays there. */
  lemma LcmFromGrows(start: nat, ps: seq<nat>)
    requires start > 0 && AllPositive(ps)
    ensures LcmFrom(start, ps) >= start
  {
    LcmFromIsLeast(start, ps, 0);
    DividesAtMost(start, LcmFrom(start, ps));
  }

  /** One capped step from a capped running value is the capped step from the true value. */
  lemma CappedStep(start: nat, p: nat, cap: nat)
    requires start > 0 && p > 0 && cap > 0
    ensures Min(Lcm(Min(start, cap), p), cap) == Min(Lcm(start, p), cap)
  {
    if start > cap {
      LcmIsLeast(start, p, 0);
      LcmIsLeast(cap, p, 0);
      DividesAtMost(start, Lcm(start, p));
      DividesAtMost(cap, Lcm(cap, p));
    }
  }
}
