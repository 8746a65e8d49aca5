/** The two refresh schedules of internal/scan/scan.go, and when they meet. */
module Schedule {
  import opened Reading

  predicate ShouldScanFDs(cfg: ScanConfig, scanNo: nat) {
    cfg.fdScanEvery <= 1 || scanNo % cfg.fdScanEvery == 1 || scanNo == 1
  }

  predicate ShouldScanSmaps(cfg: ScanConfig, scanNo: nat) {
    cfg.readSmaps &&
    (cfg.smapsScanEvery <= 1 || scanNo == 1 || scanNo % cfg.smapsScanEvery == cfg.smapsScanEvery / 2)
  }

  function WalksOf(cfg: ScanConfig, scanNo: nat): Walks {
    Walks(ShouldScanFDs(cfg, scanNo), ShouldScanSmaps(cfg, scanNo))
  }

  // ---- Divisibility ----

  ghost predicate Divides(d: int, a: int) {
    exists q: int :: a == d * q
  }

  function Gcd(a: nat, b: nat): (g: nat)
    requires a > 0
    ensures g > 0
    decreases b
  {
    if b == 0 then a else Gcd(b, a % b)
  }

  /** The greatest common divisor divides both numbers and is a combination of them. */
  lemma {:induction false} Bezout(a: nat, b: nat) returns (x: int, y: int, p: int, q: int)
    requires a > 0
    ensures a == Gcd(a, b) * p && b == Gcd(a, b) * q
    ensures Gcd(a, b) == x * a + y * b
    decreases b
  {
    if b == 0 {
      x, y, p, q := 1, 0, 1, 0;
    } else {
      var k, g := a / b, Gcd(a, b);
      var x', y', p', q' := Bezout(b, a % b);
      assert a == k * b + a % b;
      x, y, q := y', x' - k * y', p';
      p := k * p' + q';
      Combine(g, k, a, b, x', y', p', q');
    }
  }

  lemma Combine(g: int, k: int, a: int, b: int, x: int, y: int, p: int, q: int)
    requires b == g * p && a - k * b == g * q && g == x * b + y * (a - k * b)
    ensures g == y * a + (x - k * y) * b
    ensures a == g * (k * p + q)
  {
    assert k * (g * p) == g * (k * p);
    assert y * (a - k * b) == y * a - k * y * b;
  }

  lemma ModOf(s: int, n: nat, q: int, r: nat)
    requires r < n && s == q * n + r
    ensures s % n == r
  {
    var d := s / n - q;
    assert s == (s / n) * n + s % n;
    assert d * n == r - s % n by {
      assert d * n == (s / n) * n - q * n;
    }
    if d > 0 {
      Grows(d, n);
    } else if d < 0 {
      Grows(-d, n);
    }
  }

  lemma Grows(d: int, n: nat)
    requires d >= 1
    ensures d * n >= n
  {
  }

  // ---- When both walks fall on one scan ----

  /** Scan `s` refreshes descriptors and proportional memory. */
  ghost predicate Stacked(cfg: ScanConfig, s: nat) {
    ShouldScanFDs(cfg, s) && ShouldScanSmaps(cfg, s)
  }

  lemma Swap(a: int, g: int, p: int)
    ensures a * (g * p) == g * (a * p)
  {
  }

  lemma Spread(g: int, a: int, b: int)
    ensures g * (a - b) == g * a - g * b && (a + b) * g == a * g + b * g
  {
  }

  lemma QuotientOf(s: int, n: nat)
    requires n > 0
    ensures s == (s / n) * n + s % n
  {
  }

  /** A number with remainder 1 by n and h by m: gcd(n, m) divides h - 1. */
  lemma RemaindersAgree(g: int, p: int, q: int, a: int, b: int, h: int)
    requires a * (g * p) + 1 == b * (g * q) + h
    ensures h - 1 == g * (a * p - b * q)
  {
    Swap(a, g, p);
    Swap(b, g, q);
    Spread(g, a * p, b * q);
  }

  lemma StackedOnlyIfDivides(cfg: ScanConfig, s: nat)
    requires cfg.readSmaps && cfg.fdScanEvery >= 2 && cfg.smapsScanEvery >= 2
    requires s > 1 && Stacked(cfg, s)
    ensures Divides(Gcd(cfg.fdScanEvery, cfg.smapsScanEvery), cfg.smapsScanEvery / 2 - 1)
  {
    var x, y, p, q := Bezout(cfg.fdScanEvery, cfg.smapsScanEvery);
    QuotientOf(s, cfg.fdScanEvery);
    QuotientOf(s, cfg.smapsScanEvery);
    RemaindersAgree(Gcd(cfg.fdScanEvery, cfg.smapsScanEvery), p, q,
                    s / cfg.fdScanEvery, s / cfg.smapsScanEvery, cfg.smapsScanEvery / 2);
  }

  /** From a combination of n and m, a number beyond any bound with remainder 1 by n
      and h by m. */
  lemma CommonRemainders(n: nat, m: nat, h: nat, u: int, v: int, bound: nat) returns (s: nat, a: int, b: int)
    requires n >= 1 && m >= 1 && h - 1 == u * n + v * m
    ensures s > bound + 1 && s == a * n + 1 && s == b * m + h
  {
    var k := bound + 2 + (if u < 0 then -u else u);
    a, b := u + k * m, k * n - v;
    GrowsBoth(k, m);
    GrowsBoth(a, n);
    Spread(n, u, k * m);
    Swap(k * m, n, 1);
    Spread(m, k * n, v);
    Rotate(k, m, n);
    s := a * n + 1;
  }

  lemma Rotate(k: int, m: int, n: int)
    ensures (k * m) * n == m * (k * n)
  {
  }

  lemma GrowsBoth(w: nat, n: nat)
    requires n >= 1
    ensures w * n >= w
  {
  }

  lemma Stretch(x: int, n: int, y: int, m: int, t: int)
    ensures (x * n + y * m) * t == (x * t) * n + (y * t) * m
  {
    Spread(t, x * n, y * m);
    assert (x * n) * t == (x * t) * n;
    assert (y * m) * t == (y * t) * m;
  }

  /** A scan that does both walks, beyond any bound. */
  lemma StackedBeyond(cfg: ScanConfig, t: int, bound: nat) returns (s: nat)
    requires cfg.readSmaps && cfg.fdScanEvery >= 2 && cfg.smapsScanEvery >= 2
    requires cfg.smapsScanEvery / 2 - 1 == Gcd(cfg.fdScanEvery, cfg.smapsScanEvery) * t
    ensures s > bound && s > 1 && Stacked(cfg, s)
  {
    var x, y, p, q := Bezout(cfg.fdScanEvery, cfg.smapsScanEvery);
    Stretch(x, cfg.fdScanEvery, y, cfg.smapsScanEvery, t);
    var a, b;
    s, a, b := CommonRemainders(cfg.fdScanEvery, cfg.smapsScanEvery, cfg.smapsScanEvery / 2, x * t, y * t, bound);
    ModOf(s, cfg.fdScanEvery, a, 1);
    ModOf(s, cfg.smapsScanEvery, b, cfg.smapsScanEvery / 2);
  }

  ghost predicate StackedAfter(cfg: ScanConfig, bound: nat) {
    exists s: nat :: s > bound && Stacked(cfg, s)
  }

  /** For periods of two and more, some scan after the first does both expensive walks
      exactly when gcd(n, m) divides m/2 - 1; and then arbitrarily late ones do. */
  lemma CollisionTheorem(cfg: ScanConfig, bound: nat)
    requires cfg.readSmaps && cfg.fdScanEvery >= 2 && cfg.smapsScanEvery >= 2
    ensures StackedAfter(cfg, 1) <==>
            Divides(Gcd(cfg.fdScanEvery, cfg.smapsScanEvery), cfg.smapsScanEvery / 2 - 1)
    ensures StackedAfter(cfg, 1) ==> StackedAfter(cfg, bound)
  {
    var g, c := Gcd(cfg.fdScanEvery, cfg.smapsScanEvery), cfg.smapsScanEvery / 2 - 1;
    if StackedAfter(cfg, 1) {
      var s: nat :| s > 1 && Stacked(cfg, s);
      StackedOnlyIfDivides(cfg, s);
    }
    if Divides(g, c) {
      var t :| c == g * t;
      var late := StackedBeyond(cfg, t, bound);
      var early := StackedBeyond(cfg, t, 1);
    }
  }

  lemma {:induction false} GcdSelf(n: nat)
    requires n > 0
    ensures Gcd(n, n) == n
  {
    assert n % n == 0 by { ModOf(n, n, 1, 0); }
    assert Gcd(n, 0) == n;
  }

  lemma NoSmallMultiple(n: nat, c: nat)
    requires 0 < c < n
    ensures !Divides(n, c)
  {
    forall q: int ensures c != n * q {
      if q >= 1 {
        Grows(q, n);
      }
    }
  }

  /** Equal periods keep the two walks apart after the first scan exactly from four on. */
  lemma EqualPeriods(cfg: ScanConfig)
    requires cfg.readSmaps && cfg.fdScanEvery == cfg.smapsScanEvery >= 2
    ensures !StackedAfter(cfg, 1) <==> cfg.fdScanEvery >= 4
  {
    var n := cfg.fdScanEvery;
    GcdSelf(n);
    CollisionTheorem(cfg, 1);
    if n >= 4 {
      NoSmallMultiple(n, n / 2 - 1);
    } else {
      assert n / 2 - 1 == n * 0;
    }
  }

  /** Coprime periods meet again and again, whatever the offset of the second schedule. */
  lemma CoprimePeriods(cfg: ScanConfig, bound: nat)
    requires cfg.readSmaps && cfg.fdScanEvery >= 2 && cfg.smapsScanEvery >= 2
    requires Gcd(cfg.fdScanEvery, cfg.smapsScanEvery) == 1
    ensures StackedAfter(cfg, bound)
  {
    var t := cfg.smapsScanEvery / 2 - 1;
    assert t == 1 * t;
    var s := StackedBeyond(cfg, t, bound);
  }

  // ---- How far apart refreshes are ----

  /** Among any `n` consecutive scans at least one refreshes descriptors: the latest
      such scan is fewer than `n` scans back. */
  lemma FdRefreshWithin(cfg: ScanConfig, s: nat) returns (r: nat)
    requires s >= 1
    ensures 1 <= r <= s && ShouldScanFDs(cfg, r)
    ensures s - r < if cfg.fdScanEvery <= 1 then 1 else cfg.fdScanEvery
  {
    var n := cfg.fdScanEvery;
    if n <= 1 {
      r := s;
    } else if s % n == 0 {
      r := s - (n - 1);
      ModOf(r, n, s / n - 1, 1);
    } else {
      r := s - s % n + 1;
      ModOf(r, n, s / n, 1);
    }
  }

  /** The same for proportional memory. */
  lemma SmapsRefreshWithin(cfg: ScanConfig, s: nat) returns (r: nat)
    requires s >= 1 && cfg.readSmaps
    ensures 1 <= r <= s && ShouldScanSmaps(cfg, r)
    ensures s - r < if cfg.smapsScanEvery <= 1 then 1 else cfg.smapsScanEvery
  {
    var m := cfg.smapsScanEvery;
    if m <= 1 {
      r := s;
    } else {
      var back := (s - m / 2) % m;
      var q := (s - m / 2) / m;
      assert s - m / 2 == q * m + back;
      if s - back >= 1 {
        r := s - back;
        ModOf(r, m, q, m / 2);
      } else {
        r := 1;
      }
    }
  }
}
