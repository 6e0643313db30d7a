/**
 * Severity classification of forecast errors (ADetector.classify_anomaly).
 *
 * The errors of the whole evaluated slice give one mean and one population
 * standard deviation; every multiplier k of the severity list then gives a
 * threshold `mean + std * k`, and a point's tier is the largest position
 * (counted from 1) of a threshold its error lies strictly above, 0 if none.
 *
 * The model never takes a square root: `Exceeds` decides `e > mean + std * k`
 * from the variance `std * std`, and ExceedsIffAboveThreshold proves the two
 * tests agree for every non-negative std.
 */
module Severity {

  /** The multipliers classify_anomaly uses when its caller passes none. */
  const DefaultStds: seq<real> := [2.0, 4.0, 8.0]

  function Sum(s: seq<real>): real
  {
    if s == [] then 0.0 else Sum(s[..|s| - 1]) + s[|s| - 1]
  }

  /** The arithmetic mean. An empty slice has no point to compare with it, so 0 stands in for NumPy's nan. */
  function Mean(s: seq<real>): (m: real)
    ensures |s| == 0 ==> m == 0.0
    ensures |s| > 0 ==> m * (|s| as real) == Sum(s)
  {
    if |s| == 0 then 0.0 else Sum(s) / (|s| as real)
  }

  function SquaredDeviations(s: seq<real>, m: real): (r: seq<real>)
    ensures |r| == |s|
    ensures forall j :: 0 <= j < |s| ==> r[j] == (s[j] - m) * (s[j] - m)
  {
    seq(|s|, j requires 0 <= j < |s| => (s[j] - m) * (s[j] - m))
  }

  /** The population variance: squared deviations from the mean, divided by N (NumPy's ddof=0). */
  function PopVariance(s: seq<real>): (v: real)
    ensures |s| == 0 ==> v == 0.0
    ensures |s| > 0 ==> v * (|s| as real) == Sum(SquaredDeviations(s, Mean(s)))
  {
    if |s| == 0 then 0.0 else Sum(SquaredDeviations(s, Mean(s))) / (|s| as real)
  }

  /** `std` is the population standard deviation of `s`. */
  predicate IsPopStd(std: real, s: seq<real>)
  {
    std >= 0.0 && std * std == PopVariance(s)
  }

  /** The test the source applies: the error lies strictly above `mean + std * k`. */
  predicate AboveThreshold(e: real, mean: real, std: real, k: real)
  {
    e > mean + std * k
  }

  /** The same test, decided from the variance instead of the standard deviation. */
  predicate Exceeds(e: real, mean: real, variance: real, k: real)
  {
    var d := e - mean;
    if k >= 0.0 then d > 0.0 && d * d > k * k * variance
    else d > 0.0 || d * d < k * k * variance
  }

  lemma SquaresKeepOrder(a: real, b: real)
    requires 0.0 <= a
    ensures a < b ==> a * a < b * b
    ensures a <= b ==> a * a <= b * b
  {
    if a < b {
      var aa, ab, bb := a * a, a * b, b * b;
      assert aa <= ab;
      assert ab < bb by {
        assert bb - ab == (b - a) * b;
      }
    }
  }

  lemma ExceedsIffAboveThreshold(e: real, mean: real, std: real, k: real)
    requires std >= 0.0
    ensures Exceeds(e, mean, std * std, k) <==> AboveThreshold(e, mean, std, k)
  {
    var d, t := e - mean, std * k;
    assert k * k * (std * std) == t * t;
    if k >= 0.0 {
      assert t >= 0.0;
      if d > t {
        SquaresKeepOrder(t, d);
      } else if d > 0.0 {
        SquaresKeepOrder(d, t);
      }
    } else {
      assert t <= 0.0;
      if d <= 0.0 {
        SquaresKeepOrder(-d, -t);
        SquaresKeepOrder(-t, -d);
      }
    }
  }

  /**
   * The tier the tiering loop leaves on a point with error `e`: the last
   * multiplier of `stds` whose threshold `e` exceeds decides it.
   */
  function Tier(e: real, mean: real, variance: real, stds: seq<real>): (t: nat)
    ensures t <= |stds|
  {
    if |stds| == 0 then 0
    else if Exceeds(e, mean, variance, stds[|stds| - 1]) then |stds|
    else Tier(e, mean, variance, stds[..|stds| - 1])
  }

  /** A point's tier is the largest i+1 whose threshold its error exceeds, whatever the order of `stds`. */
  lemma {:induction false} TierIsLargestExceeded(e: real, mean: real, std: real, stds: seq<real>)
    requires std >= 0.0
    ensures var t := Tier(e, mean, std * std, stds);
      (t > 0 ==> AboveThreshold(e, mean, std, stds[t - 1])) &&
      (forall i :: t <= i < |stds| ==> !AboveThreshold(e, mean, std, stds[i]))
  {
    if |stds| > 0 {
      var n := |stds| - 1;
      ExceedsIffAboveThreshold(e, mean, std, stds[n]);
      if !Exceeds(e, mean, std * std, stds[n]) {
        var prefix := stds[..n];
        TierIsLargestExceeded(e, mean, std, prefix);
        var t := Tier(e, mean, std * std, prefix);
        forall i | t <= i < |stds|
          ensures !AboveThreshold(e, mean, std, stds[i])
        {
          if i < n {
            assert stds[i] == prefix[i];
          }
        }
      }
    }
  }

  /** A point is anomalous (tier above 0) exactly when its error exceeds at least one threshold. */
  lemma AnomalousIffSomeThresholdExceeded(e: real, mean: real, std: real, stds: seq<real>)
    requires std >= 0.0
    ensures Tier(e, mean, std * std, stds) > 0 <==>
      exists i :: 0 <= i < |stds| && AboveThreshold(e, mean, std, stds[i])
  {
    TierIsLargestExceeded(e, mean, std, stds);
    var t := Tier(e, mean, std * std, stds);
    if t > 0 {
      assert AboveThreshold(e, mean, std, stds[t - 1]);
    }
  }

  /**
   * With a zero variance every threshold is the mean itself: an error above
   * it would get the top tier, any other error 0. Over the classifier's own
   * statistics no error lies above the mean then (NoSpreadMeansAllAtMean).
   */
  lemma {:induction false} TierWithZeroVariance(e: real, mean: real, stds: seq<real>)
    ensures Tier(e, mean, 0.0, stds) == if e > mean then |stds| else 0
  {
    if |stds| > 0 {
      var k := stds[|stds| - 1];
      assert k * k * 0.0 == 0.0;
      SquaresKeepOrder(0.0, e - mean);
      SquaresKeepOrder(0.0, mean - e);
      assert (mean - e) * (mean - e) == (e - mean) * (e - mean);
      TierWithZeroVariance(e, mean, stds[..|stds| - 1]);
    }
  }

  predicate Ascending(stds: seq<real>)
  {
    forall i, j :: 0 <= i < j < |stds| ==> stds[i] <= stds[j]
  }

  /**
   * For ascending multipliers the thresholds nest: a point of tier t exceeds
   * exactly the first t thresholds, so its tier counts the thresholds it exceeds.
   */
  lemma TiersNestForAscendingStds(e: real, mean: real, std: real, stds: seq<real>)
    requires std >= 0.0 && Ascending(stds)
    ensures forall i :: 0 <= i < |stds| ==>
      (AboveThreshold(e, mean, std, stds[i]) <==> i < Tier(e, mean, std * std, stds))
  {
    TierIsLargestExceeded(e, mean, std, stds);
    var t := Tier(e, mean, std * std, stds);
    forall i | 0 <= i < t
      ensures AboveThreshold(e, mean, std, stds[i])
    {
      assert std * stds[i] <= std * stds[t - 1];
    }
  }

  lemma {:induction false} SumOfConstant(s: seq<real>, c: real)
    requires forall j :: 0 <= j < |s| ==> s[j] == c
    ensures Sum(s) == (|s| as real) * c
  {
    if s != [] {
      SumOfConstant(s[..|s| - 1], c);
    }
  }

  lemma {:induction false} SumOfNonNegative(s: seq<real>)
    requires forall j :: 0 <= j < |s| ==> s[j] >= 0.0
    ensures Sum(s) >= 0.0
  {
    if s != [] {
      SumOfNonNegative(s[..|s| - 1]);
    }
  }

  /** A square is never negative, and it is 0 only for 0. */
  lemma SquareSign(d: real)
    ensures d * d >= 0.0
    ensures d * d == 0.0 <==> d == 0.0
  {
    if d >= 0.0 {
      SquaresKeepOrder(0.0, d);
    } else {
      SquaresKeepOrder(0.0, -d);
      assert (-d) * (-d) == d * d;
    }
  }

  lemma SquaredDeviationsNonNegative(s: seq<real>, m: real)
    ensures forall j :: 0 <= j < |s| ==> SquaredDeviations(s, m)[j] >= 0.0
  {
    var sq := SquaredDeviations(s, m);
    forall j | 0 <= j < |s|
      ensures sq[j] >= 0.0
    {
      SquareSign(s[j] - m);
    }
  }

  /** The variance is never negative, so a standard deviation always squares to it. */
  lemma PopVarianceNonNegative(s: seq<real>)
    ensures PopVariance(s) >= 0.0
  {
    if |s| > 0 {
      SquaredDeviationsNonNegative(s, Mean(s));
      SumOfNonNegative(SquaredDeviations(s, Mean(s)));
    }
  }

  /** Non-negative terms add up to 0 only when every term is 0. */
  lemma {:induction false} ZeroSumOfNonNegative(s: seq<real>)
    requires forall j :: 0 <= j < |s| ==> s[j] >= 0.0
    requires Sum(s) == 0.0
    ensures forall j :: 0 <= j < |s| ==> s[j] == 0.0
  {
    if s != [] {
      var init := s[..|s| - 1];
      SumOfNonNegative(init);
      ZeroSumOfNonNegative(init);
      forall j | 0 <= j < |s|
        ensures s[j] == 0.0
      {
        if j < |s| - 1 {
          assert s[j] == init[j];
        }
      }
    }
  }

  /**
   * Zero variance leaves no error away from the mean: mean and variance are
   * taken over the same errors, so every one of them equals the mean.
   */
  lemma NoSpreadMeansAllAtMean(s: seq<real>)
    requires PopVariance(s) == 0.0
    ensures forall j :: 0 <= j < |s| ==> s[j] == Mean(s)
  {
    if |s| > 0 {
      var sq := SquaredDeviations(s, Mean(s));
      var total, size := Sum(sq), |s| as real;
      assert total == 0.0 by {
        assert total / size == 0.0;
        assert total == (total / size) * size;
      }
      SquaredDeviationsNonNegative(s, Mean(s));
      ZeroSumOfNonNegative(sq);
      forall j | 0 <= j < |s|
        ensures s[j] == Mean(s)
      {
        SquareSign(s[j] - Mean(s));
      }
    }
  }

  /** Identical errors have that error as their mean and no spread. */
  lemma ConstantErrorsHaveNoSpread(s: seq<real>, c: real)
    requires |s| > 0
    requires forall j :: 0 <= j < |s| ==> s[j] == c
    ensures Mean(s) == c
    ensures PopVariance(s) == 0.0
  {
    SumOfConstant(s, c);
    SumOfConstant(SquaredDeviations(s, c), 0.0);
  }

  /** The errors of `n` exact forecasts followed by one error `c`. */
  function LoneSpike(n: nat, c: real): (errors: seq<real>)
    ensures |errors| == n + 1 && errors[n] == c
    ensures forall j :: 0 <= j < n ==> errors[j] == 0.0
  {
    seq(n, _ => 0.0) + [c]
  }

  lemma LoneSpikeMean(n: nat, c: real, a: real)
    requires c == a * ((n + 1) as real)
    ensures Mean(LoneSpike(n, c)) == a
  {
    var errors := LoneSpike(n, c);
    assert errors[..n] == seq(n, _ => 0.0);
    SumOfConstant(errors[..n], 0.0);
    assert Sum(errors) == c;
  }

  lemma LoneSpikeDeviations(n: nat, c: real, a: real)
    ensures Sum(SquaredDeviations(LoneSpike(n, c), a)) == (n as real) * (a * a) + (c - a) * (c - a)
  {
    var dev := SquaredDeviations(LoneSpike(n, c), a);
    forall j | 0 <= j < n
      ensures dev[j] == a * a
    {
      assert (0.0 - a) * (0.0 - a) == a * a;
    }
    assert dev[..n] == seq(n, _ => a * a);
    SumOfConstant(dev[..n], a * a);
  }

  lemma VarianceAlgebra(c: real, a: real, m: real, size: real, total: real)
    requires m >= 0.0 && size == m + 1.0 && c == a * size
    requires total == m * (a * a) + (c - a) * (c - a)
    ensures total == (a * a * m) * size
  {
    var aa := a * a;
    var d := c - a;
    assert d == a * m;
    assert d * d == aa * (m * m);
  }

  lemma LoneSpikeSquaredTotal(n: nat, c: real, a: real)
    requires c == a * ((n + 1) as real)
    ensures Sum(SquaredDeviations(LoneSpike(n, c), a)) == (a * a * (n as real)) * ((n + 1) as real)
  {
    LoneSpikeDeviations(n, c, a);
    VarianceAlgebra(c, a, n as real, (n + 1) as real, Sum(SquaredDeviations(LoneSpike(n, c), a)));
  }

  lemma CancelFactor(x: real, y: real)
    requires y != 0.0
    ensures (x * y) / y == x
  {
  }

  lemma VarianceAboutMean(s: seq<real>, a: real)
    requires |s| > 0 && Mean(s) == a
    ensures PopVariance(s) == Sum(SquaredDeviations(s, a)) / (|s| as real)
  {
  }

  lemma LoneSpikeVariance(n: nat, c: real, a: real)
    requires c == a * ((n + 1) as real)
    ensures PopVariance(LoneSpike(n, c)) == a * a * (n as real)
  {
    var s := LoneSpike(n, c);
    var total := Sum(SquaredDeviations(s, a));
    var size := |s| as real;
    var x := a * a * (n as real);
    assert total == x * size by {
      assert size == (n + 1) as real;
      LoneSpikeSquaredTotal(n, c, a);
    }
    assert PopVariance(s) == total / size by {
      LoneSpikeMean(n, c, a);
      VarianceAboutMean(s, a);
    }
    CancelFactor(x, size);
  }

  /**
   * A lone error `c` among `n` exact forecasts: the mean and spread include
   * the spike itself, and the spike lies above the threshold of multiplier k
   * exactly when n > k*k, decided from the standard deviation as the source
   * does or from the variance alone.
   */
  lemma LoneSpikeExceedsIff(n: nat, c: real, k: real)
    requires n > 0 && c > 0.0 && k >= 0.0
    ensures var errors := LoneSpike(n, c);
      Exceeds(c, Mean(errors), PopVariance(errors), k) <==> (n as real) > k * k
    ensures var errors := LoneSpike(n, c);
      forall std :: IsPopStd(std, errors) ==>
        (AboveThreshold(c, Mean(errors), std, k) <==> (n as real) > k * k)
  {
    var errors := LoneSpike(n, c);
    var m := n as real;
    assert Exceeds(c, Mean(errors), PopVariance(errors), k) <==> m > k * k by {
      var a := c / (m + 1.0);
      assert c == a * (m + 1.0);
      LoneSpikeMean(n, c, a);
      LoneSpikeVariance(n, c, a);
      var d := c - a;
      assert d == a * m;
      assert a > 0.0;
      var aa := a * a;
      assert aa > 0.0;
      var w := aa * m;
      assert w > 0.0;
      assert d * d == w * m;
      assert k * k * w == w * (k * k);
      assert w * m > w * (k * k) <==> m > k * k;
    }
    forall std | IsPopStd(std, errors)
      ensures AboveThreshold(c, Mean(errors), std, k) <==> m > k * k
    {
      ExceedsIffAboveThreshold(c, Mean(errors), std, k);
    }
  }

  /** Sixty exact forecasts and one spike: with the default multipliers the spike gets tier 2, not 3. */
  lemma LoneSpikeAmongSixtyGetsTierTwo(c: real)
    requires c > 0.0
    ensures var errors := LoneSpike(60, c);
      Tier(c, Mean(errors), PopVariance(errors), DefaultStds) == 2
  {
    LoneSpikeExceedsIff(60, c, 8.0);
    LoneSpikeExceedsIff(60, c, 4.0);
    assert DefaultStds[..2] == [2.0, 4.0];
  }

  /**
   * The tiering loop of classify_anomaly. Every point starts normal (not
   * anomalous, impact 0); for each multiplier in turn, every point whose
   * error exceeds its threshold is marked anomalous with impact i+1, over
   * what earlier multipliers wrote. Mean and variance are taken once, over
   * all errors, before any point is marked.
   */
  method ClassifyErrors(errors: seq<real>, stds: seq<real>) returns (anomaly: array<bool>, impact: array<int>)
    ensures fresh(anomaly) && fresh(impact)
    ensures anomaly.Length == |errors| && impact.Length == |errors|
    ensures forall j :: 0 <= j < |errors| ==>
      impact[j] == Tier(errors[j], Mean(errors), PopVariance(errors), stds) && anomaly[j] == (impact[j] > 0)
  {
    var mean := Mean(errors);
    var variance := PopVariance(errors);
    anomaly := new bool[|errors|](_ => false);
    impact := new int[|errors|](_ => 0);
    var i := 0;
    while i < |stds|
      invariant 0 <= i <= |stds|
      invariant anomaly.Length == |errors| && impact.Length == |errors|
      invariant forall j :: 0 <= j < |errors| ==>
        impact[j] == Tier(errors[j], mean, variance, stds[..i]) && anomaly[j] == (impact[j] > 0)
    {
      forall j | 0 <= j < |errors| && Exceeds(errors[j], mean, variance, stds[i]) {
        anomaly[j] := true;
      }
      forall j | 0 <= j < |errors| && Exceeds(errors[j], mean, variance, stds[i]) {
        impact[j] := i + 1;
      }
      assert stds[..i + 1][..i] == stds[..i];
      i := i + 1;
    }
    assert stds[..|stds|] == stds;
  }
}
