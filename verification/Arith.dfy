/** Products, quotients and remainders. */
module Arith {
  lemma MulLe(a: nat, b: nat, p: nat)
    ensures a <= b ==> a * p <= b * p
  {
    if a <= b {
      assert b * p == a * p + (b - a) * p;
    }
  }

  /** Division is determined by a remainder below the divisor. */
  lemma DivExact(i: nat, p: nat, rem: nat)
    requires rem < p
    ensures (i * p + rem) / p == i
  {
    var n := i * p + rem;
    var d := n / p;
    assert n == d * p + n % p;
    MulLe(d + 1, i, p);
    MulLe(i + 1, d, p);
    assert (d + 1) * p == d * p + p && (i + 1) * p == i * p + p;
  }

  /** The multiple right after `a` is the first one past it. */
  lemma FirstMultiple(a: nat, p: nat, j: nat)
    requires p > 0
    ensures var m := (a / p + 1) * p;
      a < m <= a + p && p <= m && (j * p > a ==> m <= j * p)
  {
    var e := a / p;
    assert a == e * p + a % p;
    assert (e + 1) * p == e * p + p;
    MulLe(j, e, p);
    MulLe(e + 1, j, p);
    MulLe(0, e, p);
  }

  lemma DivAtMost(a: nat, p: nat)
    requires p > 0
    ensures a / p <= a
  {
    var e := a / p;
    assert a == e * p + a % p;
    MulLe(1, p, e);
    assert p * e == e * p;
  }

  lemma DivDown(a: nat, p: nat)
    requires 0 < p <= a
    ensures a / p >= 1 && (a - p) / p == a / p - 1
    ensures (a / p + 1) * p == p + ((a - p) / p + 1) * p
  {
    var e, rem := a / p, a % p;
    assert a == e * p + rem;
    MulLe(e, 0, p);
    assert (e - 1) * p == e * p - p && (e + 1) * p == e * p + p;
    DivExact(e - 1, p, rem);
  }

  lemma DivSmall(a: nat, p: nat)
    requires a < p
    ensures a / p == 0 && (a / p + 1) * p == p
  {
    DivExact(0, p, a);
  }

  lemma ModIs(q: nat, r: nat, m: nat)
    requires r < m
    ensures (q * m + r) % m == r
  {
    DivExact(q, m, r);
  }

  lemma StepMod(a: nat, m: nat)
    requires m > 0
    ensures (a + 1) % m == if a % m + 1 == m then 0 else a % m + 1
  {
    var q, r := a / m, a % m;
    assert a == q * m + r && (q + 1) * m == q * m + m;
    if r + 1 == m {
      ModIs(q + 1, 0, m);
    } else {
      ModIs(q, r + 1, m);
    }
  }

  lemma ModDifference(a: nat, b: nat, w: nat)
    requires w > 0 && b <= a
    ensures a % w == b % w <==> (a - b) % w == 0
  {
    var qa, qb := a / w, b / w;
    assert a == qa * w + a % w && b == qb * w + b % w;
    assert a - b == (qa - qb) * w + (a % w - b % w) by { assert (qa - qb) * w == qa * w - qb * w; }
    if a % w == b % w {
      MultipleMod(qa - qb, w);
    }
    if (a - b) % w == 0 {
      var d := (a - b) / w;
      assert a - b == d * w;
      var r := a % w - b % w;
      assert (d - (qa - qb)) * w == d * w - (qa - qb) * w;
      assert r == (d - (qa - qb)) * w;
      SmallMultiple(d - (qa - qb), w, r);
    }
  }

  lemma MultipleMod(q: int, w: nat)
    requires w > 0
    ensures (q * w) % w == 0
  {
    var m := (q * w) % w;
    var d := (q * w) / w;
    assert q * w == d * w + m;
    assert (q - d) * w == q * w - d * w;
    SmallMultiple(q - d, w, m);
  }

  lemma SmallMultiple(k: int, w: int, r: int)
    requires w > 0 && r == k * w && -w < r < w
    ensures r == 0
  {
    BigMultiple(k, w);
  }

  lemma BigMultiple(k: int, w: int)
    requires w > 0
    ensures k >= 1 ==> k * w >= w
    ensures k <= -1 ==> k * w <= -w
  {
    assert k * w == w + (k - 1) * w == -w + (k + 1) * w;
    if k >= 1 {
      assert (k - 1) * w >= 0;
    } else if k <= -1 {
      assert (k + 1) * w <= 0;
    }
  }
}
