/** Counters that wrap around. */
module Wrapping {

  lemma {:induction false} AddMultiple(x: nat, k: nat, m: nat)
    requires m > 0
    ensures (x + k * m) % m == x % m
    decreases k
  {
    if k > 0 {
      AddMultiple(x, k - 1, m);
      var y := x + (k - 1) * m;
      assert x + k * m == y + m;
      AddOnce(y, m);
    }
  }

  lemma AddOnce(y: nat, m: nat)
    requires m > 0
    ensures (y + m) % m == y % m
  {
    var q, r := y / m, y % m;
    assert y + m == (q + 1) * m + r;
    Unique(y + m, q + 1, r, m);
  }

  lemma Gap(p: nat, q: nat, m: nat)
    requires p < q
    ensures q * m >= p * m + m
  {
    var d := q - p - 1;
    assert q * m == (p + 1 + d) * m == p * m + m + d * m;
  }

  lemma Unique(x: nat, q: nat, r: nat, m: nat)
    requires m > 0 && x == q * m + r && r < m
    ensures x % m == r
  {
    var p := x / m;
    assert x == p * m + x % m;
    if p < q {
      Gap(p, q, m);
    } else if q < p {
      Gap(q, p, m);
    }
  }

  /** Wrapping before an addition makes no difference. */
  lemma WrapAdd(a: nat, b: nat, m: nat)
    requires m > 0
    ensures (a % m + b) % m == (a + b) % m
  {
    assert a + b == (a % m + b) + (a / m) * m;
    AddMultiple(a % m + b, a / m, m);
  }

  /** Nor before a multiplication. */
  lemma WrapTimes(a: nat, k: nat, m: nat)
    requires m > 0
    ensures k * (a % m) % m == k * a % m
  {
    assert a == a % m + (a / m) * m;
    assert k * a == k * (a % m) + k * ((a / m) * m);
    assert k * ((a / m) * m) == (k * (a / m)) * m;
    AddMultiple(k * (a % m), k * (a / m), m);
  }

  /** Nor before wrapping to fewer bits. */
  lemma WrapTwice(a: nat, m: nat, k: nat)
    requires m > 0 && k > 0
    ensures m * k > 0 && a % (m * k) % m == a % m
  {
    var w := m * k;
    WrapGroups(a, a % w, a / w, m, k);
  }

  lemma WrapGroups(a: nat, r: nat, q: nat, m: nat, k: nat)
    requires m > 0 && a == r + q * (m * k)
    ensures r % m == a % m
  {
    assert q * (m * k) == (q * k) * m;
    AddMultiple(r, q * k, m);
  }
}
