/**
 * The confidence scorer of the detection overlay (`calculateConfidence` in
 * src/components/DetectionResult.tsx).
 *
 * The source computes the distance of the box centre from the image centre
 * with `Math.sqrt`, then `61 + Math.round(19 * weighted)` clamped to
 * [61, 80]. `ScoreFromDistance` is that formula, given the value `d` the
 * square root returns. `CalculateConfidence` computes the same integer from
 * the SQUARED distance alone: `Math.round(19 * weighted) >= k` is decided for
 * each k in 1..19 by comparing squared quantities.
 * `CalculateConfidenceAsWritten` proves the two equal whenever `d` is the
 * true square root.
 */
module Confidence {
  import opened Records

  const OptimalCoverage: real := 0.15
  const MinConfidence: int := 61
  const MaxConfidence: int := 80
  /** Width of the confidence range: 80 - 61. */
  const Span: nat := 19

  function Abs(x: real): real { if x < 0.0 then -x else x }
  function MinReal(a: real, b: real): real { if a <= b then a else b }
  function MinInt(a: int, b: int): int { if a <= b then a else b }
  function MaxInt(a: int, b: int): int { if a >= b then a else b }

  /** JavaScript's `Math.round`: the nearest integer, halves rounded up. */
  function Round(x: real): (n: int)
    ensures n as real - 0.5 <= x < n as real + 0.5
  {
    (x + 0.5).Floor
  }

  /** Squared distance from the box centre to the image centre (0.5, 0.5). */
  function CentreDistanceSq(r: Rect): (q: real)
    ensures q >= 0.0
  {
    var dx := r.x + r.width / 2.0 - 0.5;
    var dy := r.y + r.height / 2.0 - 0.5;
    assert dx * dx >= 0.0 && dy * dy >= 0.0;
    dx * dx + dy * dy
  }

  /** `d` is what `Math.sqrt` returns for the box's centre distance. */
  predicate IsCentreDistance(r: Rect, d: real)
  {
    d >= 0.0 && d * d == CentreDistanceSq(r)
  }

  /** `1 - min(distance / 0.5, 1)`: 1 at the centre, 0 from distance 0.5 on. */
  function PositionFactor(d: real): (pf: real)
    ensures d >= 0.0 ==> 0.0 <= pf <= 1.0
    ensures d >= 0.0 ==> (pf == 1.0 <==> d == 0.0)
    ensures d >= 0.5 ==> pf == 0.0
  {
    1.0 - MinReal(d / 0.5, 1.0)
  }

  /** Box area over image area, with the box in fractions and the image in pixels. */
  function Coverage(r: Rect, imageWidth: nat, imageHeight: nat): real
    requires imageWidth * imageHeight > 0
  {
    (r.width * r.height) / (imageWidth * imageHeight) as real
  }

  /** `1 - |coverage - 0.15| / 0.15`: at most 1, and 1 exactly at the optimum. */
  function CoverageFactor(coverage: real): (cf: real)
    ensures cf <= 1.0
    ensures cf == 1.0 <==> coverage == OptimalCoverage
  {
    1.0 - Abs(coverage - OptimalCoverage) / OptimalCoverage
  }

  function Weighted(positionFactor: real, coverageFactor: real): real
  {
    positionFactor * 0.6 + coverageFactor * 0.4
  }

  /** `Math.max(61, Math.min(80, c))`. */
  function Clamp(c: int): (r: int)
    ensures MinConfidence <= r <= MaxConfidence
    ensures MinConfidence <= c <= MaxConfidence ==> r == c
  {
    MaxInt(MinConfidence, MinInt(MaxConfidence, c))
  }

  /**
   * `calculateConfidence` as written, where `d` stands for the value of the
   * `Math.sqrt` call. With a zero image area (the initial `imageSize` is
   * {0, 0}) the division gives an infinity, whose score the clamp turns into
   * 61, or NaN when the box area is zero too.
   */
  function ScoreFromDistance(r: Rect, imageWidth: nat, imageHeight: nat, d: real): (s: Score)
    ensures imageWidth * imageHeight > 0 ==> s.Finite? && MinConfidence <= s.value <= MaxConfidence
  {
    if imageWidth * imageHeight == 0 then
      if r.width * r.height == 0.0 then NaN else Finite(MinConfidence)
    else
      var cf := CoverageFactor(Coverage(r, imageWidth, imageHeight));
      Finite(Clamp(MinConfidence + Round(Weighted(PositionFactor(d), cf) * Span as real)))
  }

  /**
   * Whether `Round(19 * weighted) >= k` for a box whose squared centre
   * distance is `q` and whose coverage factor is `cf`.
   */
  predicate ReachesStep(q: real, cf: real, k: int)
  {
    if 4.0 * q >= 1.0 then
      cf * 0.4 * 19.0 + 0.5 >= k as real
    else
      var t := (0.6 * 19.0 + cf * 0.4 * 19.0 + 0.5 - k as real) / (2.0 * 0.6 * 19.0);
      t >= 0.0 && q <= t * t
  }

  /** How many of the steps 1..n are reached. */
  function StepsReached(q: real, cf: real, n: nat): (c: nat)
    ensures c <= n
  {
    if n == 0 then 0
    else StepsReached(q, cf, n - 1) + (if ReachesStep(q, cf, n) then 1 else 0)
  }

  /** `calculateConfidence`, computed without a square root. */
  function CalculateConfidence(r: Rect, imageWidth: nat, imageHeight: nat): (s: Score)
    ensures imageWidth * imageHeight > 0 ==> s.Finite?
    ensures s.Finite? ==> MinConfidence <= s.value <= MaxConfidence
    ensures s.NaN? <==> imageWidth * imageHeight == 0 && r.width * r.height == 0.0
    ensures imageWidth * imageHeight == 0 && s.Finite? ==> s.value == MinConfidence
  {
    if imageWidth * imageHeight == 0 then
      if r.width * r.height == 0.0 then NaN else Finite(MinConfidence)
    else
      var cf := CoverageFactor(Coverage(r, imageWidth, imageHeight));
      Finite(MinConfidence + StepsReached(CentreDistanceSq(r), cf, Span))
  }

  lemma ProductPositive(x: real, y: real)
    requires x > 0.0 && y > 0.0
    ensures x * y > 0.0
  {
  }

  /** For non-negative reals, order is the order of the squares. */
  lemma SquareMonotone(a: real, b: real)
    requires a >= 0.0 && b >= 0.0
    ensures a <= b <==> a * a <= b * b
  {
    if a <= b {
      assert a * a <= a * b;
      assert a * b <= b * b;
    } else {
      ProductPositive(a - b, a + b);
      assert a * a - b * b == (a - b) * (a + b);
    }
  }

  /** The squared test of step k agrees with the rounded formula. */
  lemma ReachesStepExact(q: real, cf: real, d: real, k: int)
    requires d >= 0.0 && d * d == q
    ensures ReachesStep(q, cf, k) <==> Round(Weighted(PositionFactor(d), cf) * 19.0) >= k
  {
    var x := Weighted(PositionFactor(d), cf) * 19.0;
    assert Round(x) >= k <==> x + 0.5 >= k as real;
    SquareMonotone(0.5, d);
    if d < 0.5 {
      assert PositionFactor(d) == 1.0 - 2.0 * d;
      var t := (0.6 * 19.0 + cf * 0.4 * 19.0 + 0.5 - k as real) / (2.0 * 0.6 * 19.0);
      assert x + 0.5 >= k as real <==> d <= t;
      if t >= 0.0 {
        SquareMonotone(d, t);
      }
    }
  }

  /** Counting the reached steps yields the rounded value, cut to [0, n]. */
  lemma {:induction false} StepsReachedCount(q: real, cf: real, n: nat, rounded: int)
    requires forall k :: 1 <= k <= n ==> (ReachesStep(q, cf, k) <==> rounded >= k)
    ensures StepsReached(q, cf, n) == MaxInt(0, MinInt(n, rounded))
  {
    if n > 0 {
      StepsReachedCount(q, cf, n - 1, rounded);
    }
  }

  /**
   * The square-root-free score is the source's formula, for the true
   * distance `d`.
   */
  lemma CalculateConfidenceAsWritten(r: Rect, imageWidth: nat, imageHeight: nat, d: real)
    requires IsCentreDistance(r, d)
    ensures CalculateConfidence(r, imageWidth, imageHeight) == ScoreFromDistance(r, imageWidth, imageHeight, d)
  {
    if imageWidth * imageHeight > 0 {
      var q := CentreDistanceSq(r);
      var cf := CoverageFactor(Coverage(r, imageWidth, imageHeight));
      var rounded := Round(Weighted(PositionFactor(d), cf) * 19.0);
      forall k | 1 <= k <= Span
        ensures ReachesStep(q, cf, k) <==> rounded >= k
      {
        ReachesStepExact(q, cf, d, k);
      }
      StepsReachedCount(q, cf, Span, rounded);
    }
  }

  /** A step reached farther from the centre is reached nearer to it. */
  lemma ReachesStepMonotone(q1: real, q2: real, cf: real, k: int)
    requires 0.0 <= q1 <= q2 && ReachesStep(q2, cf, k)
    ensures ReachesStep(q1, cf, k)
  {
    if 4.0 * q2 >= 1.0 && 4.0 * q1 < 1.0 {
      var t := (0.6 * 19.0 + cf * 0.4 * 19.0 + 0.5 - k as real) / (2.0 * 0.6 * 19.0);
      assert t >= 0.5;
      assert t * t >= 0.5 * t;
    }
  }

  lemma {:induction false} StepsReachedMonotone(q1: real, q2: real, cf: real, n: nat)
    requires 0.0 <= q1 <= q2
    ensures StepsReached(q1, cf, n) >= StepsReached(q2, cf, n)
  {
    if n > 0 {
      StepsReachedMonotone(q1, q2, cf, n - 1);
      if ReachesStep(q2, cf, n) {
        ReachesStepMonotone(q1, q2, cf, n);
      }
    }
  }

  /**
   * For a fixed box size and image, moving the box centre farther from the
   * image centre never increases the confidence.
   */
  lemma ConfidenceMonotone(r1: Rect, r2: Rect, imageWidth: nat, imageHeight: nat)
    requires r1.width == r2.width && r1.height == r2.height
    requires imageWidth * imageHeight > 0
    requires CentreDistanceSq(r1) <= CentreDistanceSq(r2)
    ensures CalculateConfidence(r1, imageWidth, imageHeight).value >= CalculateConfidence(r2, imageWidth, imageHeight).value
  {
    var cf := CoverageFactor(Coverage(r1, imageWidth, imageHeight));
    assert cf == CoverageFactor(Coverage(r2, imageWidth, imageHeight));
    StepsReachedMonotone(CentreDistanceSq(r1), CentreDistanceSq(r2), cf, Span);
  }

  /** Scaling a non-negative number by a factor in [0, 1] keeps it in [0, itself]. */
  lemma ProductAtMost(a: real, b: real)
    requires a >= 0.0 && 0.0 <= b <= 1.0
    ensures 0.0 <= a * b <= a
  {
    assert a - a * b == a * (1.0 - b);
    if a > 0.0 && b < 1.0 {
      ProductPositive(a, 1.0 - b);
    }
    if a > 0.0 && b > 0.0 {
      ProductPositive(a, b);
    }
  }

  /** The coverage factor falls as the coverage moves away from the optimum. */
  lemma CoverageFactorAntitone(c1: real, c2: real)
    requires Abs(c1 - OptimalCoverage) <= Abs(c2 - OptimalCoverage)
    ensures CoverageFactor(c1) >= CoverageFactor(c2)
  {
  }

  /** A step reached with a coverage factor is reached with any larger one. */
  lemma ReachesStepCoverageMonotone(q: real, cf1: real, cf2: real, k: int)
    requires q >= 0.0 && cf1 <= cf2 && ReachesStep(q, cf1, k)
    ensures ReachesStep(q, cf2, k)
  {
    if 4.0 * q < 1.0 {
      var t1 := (0.6 * 19.0 + cf1 * 0.4 * 19.0 + 0.5 - k as real) / (2.0 * 0.6 * 19.0);
      var t2 := (0.6 * 19.0 + cf2 * 0.4 * 19.0 + 0.5 - k as real) / (2.0 * 0.6 * 19.0);
      assert 0.0 <= t1 <= t2;
      SquareMonotone(t1, t2);
    }
  }

  lemma {:induction false} StepsReachedCoverageMonotone(q: real, cf1: real, cf2: real, n: nat)
    requires q >= 0.0 && cf1 <= cf2
    ensures StepsReached(q, cf1, n) <= StepsReached(q, cf2, n)
  {
    if n > 0 {
      StepsReachedCoverageMonotone(q, cf1, cf2, n - 1);
      if ReachesStep(q, cf1, n) {
        ReachesStepCoverageMonotone(q, cf1, cf2, n);
      }
    }
  }

  /**
   * For two boxes with the same centre over the same image, the one whose
   * coverage is nearer the optimal 0.15 never scores lower.
   */
  lemma CoverageMonotone(r1: Rect, r2: Rect, imageWidth: nat, imageHeight: nat)
    requires imageWidth * imageHeight > 0
    requires r1.x + r1.width / 2.0 == r2.x + r2.width / 2.0
    requires r1.y + r1.height / 2.0 == r2.y + r2.height / 2.0
    requires Abs(Coverage(r1, imageWidth, imageHeight) - OptimalCoverage)
          <= Abs(Coverage(r2, imageWidth, imageHeight) - OptimalCoverage)
    ensures CalculateConfidence(r1, imageWidth, imageHeight).value >= CalculateConfidence(r2, imageWidth, imageHeight).value
  {
    var q := CentreDistanceSq(r1);
    assert q == CentreDistanceSq(r2);
    var cf1 := CoverageFactor(Coverage(r1, imageWidth, imageHeight));
    var cf2 := CoverageFactor(Coverage(r2, imageWidth, imageHeight));
    CoverageFactorAntitone(Coverage(r1, imageWidth, imageHeight), Coverage(r2, imageWidth, imageHeight));
    StepsReachedCoverageMonotone(q, cf2, cf1, Span);
  }

  /** The coverage factor has no lower bound. */
  lemma CoverageFactorUnbounded(bound: real)
    ensures exists c :: CoverageFactor(c) < bound
  {
    var c := OptimalCoverage + OptimalCoverage * Abs(1.0 - bound) + OptimalCoverage;
    assert CoverageFactor(c) < bound;
  }

  /**
   * Because the box is in fractions and the image in pixels, a box inside
   * the unit square over an image of at least 7 pixels has coverage below
   * the optimum, and its coverage factor is at most 1 / (0.15 * pixel area):
   * practically 0.
   */
  lemma PixelAreaDilutesCoverage(r: Rect, imageWidth: nat, imageHeight: nat)
    requires 0.0 <= r.width <= 1.0 && 0.0 <= r.height <= 1.0
    requires imageWidth * imageHeight >= 7
    ensures 0.0 <= CoverageFactor(Coverage(r, imageWidth, imageHeight))
                <= 1.0 / (OptimalCoverage * (imageWidth * imageHeight) as real)
  {
    var area := (imageWidth * imageHeight) as real;
    var boxArea := r.width * r.height;
    ProductAtMost(r.width, r.height);
    assert 0.0 <= boxArea <= 1.0;
    var c := Coverage(r, imageWidth, imageHeight);
    assert c == boxArea / area;
    assert 0.0 <= c <= 1.0 / area;
    assert 1.0 / area <= 1.0 / 7.0;
    assert CoverageFactor(c) == c / OptimalCoverage;
  }

  /** Reaching a step implies reaching every lower step. */
  lemma ReachesStepAntitone(q: real, cf: real, j: int, k: int)
    requires q >= 0.0 && j <= k
    ensures ReachesStep(q, cf, k) ==> ReachesStep(q, cf, j)
  {
    if 4.0 * q < 1.0 && ReachesStep(q, cf, k) {
      var tj := (0.6 * 19.0 + cf * 0.4 * 19.0 + 0.5 - j as real) / (2.0 * 0.6 * 19.0);
      var tk := (0.6 * 19.0 + cf * 0.4 * 19.0 + 0.5 - k as real) / (2.0 * 0.6 * 19.0);
      assert 0.0 <= tk <= tj;
      SquareMonotone(tk, tj);
    }
  }

  /** When step m is the last one reached, the confidence is 61 + m. */
  lemma StepsReachedUpTo(q: real, cf: real, m: nat)
    requires q >= 0.0 && m <= Span
    requires m == 0 || ReachesStep(q, cf, m)
    requires m == Span || !ReachesStep(q, cf, m + 1)
    ensures StepsReached(q, cf, Span) == m
  {
    forall k | 1 <= k <= Span
      ensures ReachesStep(q, cf, k) <==> m >= k
    {
      if k <= m {
        ReachesStepAntitone(q, cf, k, m);
      } else {
        ReachesStepAntitone(q, cf, m + 1, k);
      }
    }
    StepsReachedCount(q, cf, Span, m);
  }

  /** A box of 0.2 x 0.2 at (0.3, 0.3) over a one-pixel image (coverage 0.04) scores 71. */
  lemma ScoreOfOffCentreBox()
    ensures CalculateConfidence(Rect(0.3, 0.3, 0.2, 0.2), 1, 1) == Finite(71)
  {
    var r := Rect(0.3, 0.3, 0.2, 0.2);
    assert CentreDistanceSq(r) == 0.02;
    assert Coverage(r, 1, 1) == 0.04;
    var cf := CoverageFactor(0.04);
    assert cf == 4.0 / 15.0;
    assert ReachesStep(0.02, cf, 10);
    assert !ReachesStep(0.02, cf, 11);
    StepsReachedUpTo(0.02, cf, 10);
  }

  /** The same box centred over a 640 x 480 image scores 72, not 80. */
  lemma ScoreOfCentredBox()
    ensures CalculateConfidence(Rect(0.4, 0.4, 0.2, 0.2), 640, 480) == Finite(72)
  {
    var r := Rect(0.4, 0.4, 0.2, 0.2);
    assert CentreDistanceSq(r) == 0.0;
    var c := Coverage(r, 640, 480);
    assert c == 0.04 / 307200.0;
    var cf := CoverageFactor(c);
    assert cf == c / 0.15;
    assert ReachesStep(0.0, cf, 11);
    assert !ReachesStep(0.0, cf, 12);
    StepsReachedUpTo(0.0, cf, 11);
  }
}
