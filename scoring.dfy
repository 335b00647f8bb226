/**
 * The admission-chance heuristic shown on every listing card: with quota Q and
 * R candidates already registered, the chance "if you register too" is
 * Q / (R + 1), capped at 1, shown as a whole percentage and as one of four
 * labels.  The page code computes the ratio in floating point and rounds it with
 * `Math.round`; here the ratio is the exact fraction and the rounding is exact
 * round-half-up.
 */
module Scoring {

  /** The badge labels; `Unavailable` ("Tidak tersedia") is only the initial value of the badge variable. */
  datatype Label = Unavailable | SangatRendah | Rendah | Cukup | Tinggi

  /** The text the badge shows. */
  function LabelText(l: Label): (s: string)
    ensures l != Unavailable ==> s != "Tidak tersedia"
  {
    match l
    case Unavailable => "Tidak tersedia"
    case SangatRendah => "Sangat Rendah"
    case Rendah => "Rendah"
    case Cukup => "Cukup"
    case Tinggi => "Tinggi"
  }

  /** p is n/d rounded to the nearest integer, halves rounded up: p - 1/2 <= n/d < p + 1/2. */
  ghost predicate IsNearest(n: nat, d: nat, p: nat)
  {
    (2 * p - 1) * d <= 2 * n < (2 * p + 1) * d
  }

  /** `Math.round(n / d)` for a non-negative exact fraction. */
  function RoundHalfUp(n: nat, d: nat): (p: nat)
    requires d > 0
    ensures IsNearest(n, d, p)
  {
    var q := (2 * n + d) / (2 * d);
    DivBounds(2 * n + d, 2 * d);
    assert (2 * q - 1) * d == 2 * d * q - d;
    assert (2 * q + 1) * d == 2 * d * q + 2 * d - d;
    q
  }

  /** Division on naturals sits between the two neighbouring multiples. */
  lemma DivBounds(a: nat, b: nat)
    requires b > 0
    ensures b * (a / b) <= a < b * (a / b) + b
  {
  }

  /** Rounding is monotone: a smaller fraction never rounds to a larger integer. */
  lemma {:induction false} NearestMonotone(n: nat, d: nat, p: nat, n': nat, d': nat, p': nat)
    requires d > 0 && d' > 0
    requires IsNearest(n, d, p) && IsNearest(n', d', p')
    requires n * d' <= n' * d
    ensures p <= p'
  {
    if p > p' {
      var k := 2 * p' + 1;
      assert k <= 2 * p - 1;
      assert k * d <= (2 * p - 1) * d by { MulMonotone(k, 2 * p - 1, d); }
      assert k * d * d' <= 2 * n * d' by { MulMonotone(k * d, 2 * n, d'); }
      assert 2 * n' * d < k * d' * d by { MulStrict(2 * n', k * d', d); }
      assert false;
    }
  }

  lemma MulMonotone(a: int, b: int, c: nat)
    requires a <= b
    ensures a * c <= b * c
  {
  }

  lemma MulStrict(a: int, b: int, c: nat)
    requires a < b && c > 0
    ensures a * c < b * c
  {
  }

  /** At most one integer is the rounded value of a fraction. */
  lemma NearestUnique(n: nat, d: nat, p: nat, p': nat)
    requires d > 0
    requires IsNearest(n, d, p) && IsNearest(n, d, p')
    ensures p == p'
  {
    NearestMonotone(n, d, p, n, d, p');
    NearestMonotone(n, d, p', n, d, p);
  }

  function Min(a: nat, b: nat): nat { if a <= b then a else b }

  /**
   * The displayed percentage: the clamped ratio min(Q, R+1) / (R+1), times 100,
   * rounded half up.  It always lies in [0, 100].
   */
  function Percent(quota: nat, registered: nat): (p: nat)
    ensures p <= 100
    ensures IsNearest(100 * Min(quota, registered + 1), registered + 1, p)
  {
    var total := registered + 1;
    var p := RoundHalfUp(100 * Min(quota, total), total);
    NearestCap(100 * Min(quota, total), total, p);
    p
  }

  /** A fraction of at most 1 (times 100) rounds to at most 100. */
  lemma NearestCap(n: nat, d: nat, p: nat)
    requires d > 0 && n <= 100 * d
    requires IsNearest(n, d, p)
    ensures p <= 100
  {
    var m := 100 * d;
    assert IsNearest(m, d, 100) by {
      assert (2 * 100 - 1) * d == 199 * d;
      assert (2 * 100 + 1) * d == 201 * d;
    }
    MulMonotone(n, m, d);
    NearestMonotone(n, d, p, m, d, 100);
  }

  /** The band chosen by the if/else-if chain: inclusive lower bounds 75, 50 and 25. */
  function Classify(percent: int): (l: Label)
    ensures l != Unavailable
    ensures l == Tinggi <==> percent >= 75
    ensures l == Cukup <==> 50 <= percent < 75
    ensures l == Rendah <==> 25 <= percent < 50
    ensures l == SangatRendah <==> percent < 25
  {
    if percent >= 75 then Tinggi
    else if percent >= 50 then Cukup
    else if percent >= 25 then Rendah
    else SangatRendah
  }

  /**
   * The badge computation step by step, as the render code does it: the ratio
   * starts at 0, becomes Q / total when total > 0, is capped at 1, is turned
   * into a percentage, and the badge starts as "Tidak tersedia" and is
   * overwritten by exactly one band.  The ratio is kept as the exact fraction
   * num / den.
   */
  method Badge(quota: nat, registered: nat) returns (percent: nat, badge: Label)
    ensures percent == Percent(quota, registered)
    ensures badge == Classify(percent)
    ensures badge != Unavailable
  {
    var total := registered + 1;
    var num, den := 0, 1;
    if total > 0 {
      num, den := quota, total;
    }
    if num > den {
      num, den := 1, 1;
    }
    percent := RoundHalfUp(100 * num, den);
    ghost var exact := RoundHalfUp(100 * Min(quota, total), total);
    if quota > total {
      assert IsNearest(100 * Min(quota, total), total, 100);
      NearestUnique(100 * Min(quota, total), total, exact, 100);
      NearestUnique(100, 1, percent, 100);
    }
    badge := Unavailable;
    if percent >= 75 {
      badge := Tinggi;
    } else if percent >= 50 {
      badge := Cukup;
    } else if percent >= 25 {
      badge := Rendah;
    } else {
      badge := SangatRendah;
    }
  }

  /** Quota at least R + 1 caps the ratio at 1: 100% and "Tinggi". */
  lemma FullChance(quota: nat, registered: nat)
    requires quota >= registered + 1
    ensures Percent(quota, registered) == 100
    ensures Classify(Percent(quota, registered)) == Tinggi
  {
    var total := registered + 1;
    assert IsNearest(100 * Min(quota, total), total, 100);
    NearestUnique(100 * Min(quota, total), total, Percent(quota, registered), 100);
  }

  /** No quota gives 0% and "Sangat Rendah". */
  lemma NoQuota(registered: nat)
    ensures Percent(0, registered) == 0
    ensures Classify(Percent(0, registered)) == SangatRendah
  {
    NearestUnique(0, registered + 1, Percent(0, registered), 0);
  }

  /** More quota never lowers the chance. */
  lemma PercentGrowsWithQuota(quota: nat, quota': nat, registered: nat)
    requires quota <= quota'
    ensures Percent(quota, registered) <= Percent(quota', registered)
  {
    var d := registered + 1;
    MulMonotone(100 * Min(quota, d), 100 * Min(quota', d), d);
    NearestMonotone(100 * Min(quota, d), d, Percent(quota, registered),
                    100 * Min(quota', d), d, Percent(quota', registered));
  }

  /** More registered candidates never raise the chance. */
  lemma PercentFallsWithRegistered(quota: nat, registered: nat, registered': nat)
    requires registered <= registered'
    ensures Percent(quota, registered') <= Percent(quota, registered)
  {
    var d, d' := registered + 1, registered' + 1;
    var n, n' := 100 * Min(quota, d'), 100 * Min(quota, d);
    if quota <= d {
      MulMonotone(d, d', 100 * quota);
      assert n * d == 100 * quota * d;
      assert n' * d' == 100 * quota * d';
    } else {
      MulMonotone(Min(quota, d'), d', 100 * d);
      assert n * d == Min(quota, d') * (100 * d);
      assert n' * d' == d' * (100 * d);
    }
    NearestMonotone(n, d', Percent(quota, registered'), n', d, Percent(quota, registered));
  }

  /** A higher percentage never gets a lower band. */
  lemma ClassifyMonotone(p: int, p': int)
    requires p <= p'
    ensures Rank(Classify(p)) <= Rank(Classify(p'))
  {
  }

  function Rank(l: Label): nat
  {
    match l
    case Unavailable => 0
    case SangatRendah => 1
    case Rendah => 2
    case Cukup => 3
    case Tinggi => 4
  }

  /** The examples worked out by hand: (5, 4), (2, 7), (1, 19). */
  lemma Examples()
    ensures Percent(5, 4) == 100 && Classify(Percent(5, 4)) == Tinggi
    ensures Percent(2, 7) == 25 && Classify(Percent(2, 7)) == Rendah
    ensures Percent(1, 19) == 5 && Classify(Percent(1, 19)) == SangatRendah
  {
    NearestUnique(500, 5, Percent(5, 4), 100);
    NearestUnique(200, 8, Percent(2, 7), 25);
    NearestUnique(100, 20, Percent(1, 19), 5);
  }

  /** Band edges: 75, 74, 50, 49, 25, 24. */
  lemma BandEdges()
    ensures Classify(75) == Tinggi && Classify(74) == Cukup
    ensures Classify(50) == Cukup && Classify(49) == Rendah
    ensures Classify(25) == Rendah && Classify(24) == SangatRendah
  {
  }
}
