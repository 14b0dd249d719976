/** Bollinger bands of iwda_signals.py: the 20-row simple moving average of the price and the
    bands two sample standard deviations above and below it. The square root is a parameter;
    the facts about the bands assume it is the exact non-negative square root. */
module Bollinger {
  import opened Wrappers
  import opened Config
  import opened Rolling

  /** `sqrt` is the exact non-negative square root on the non-negative reals. The value at zero
      follows from the rest, but the solver does not derive it from `z * z == 0.0` unaided. */
  ghost predicate IsSqrt(sqrt: real -> real)
  {
    && sqrt(0.0) == 0.0
    && forall v: real :: 0.0 <= v ==> 0.0 <= sqrt(v) && sqrt(v) * sqrt(v) == v
  }

  /** The arithmetic mean of a non-empty window. */
  function Mean(s: seq<real>): real
    requires |s| > 0
  {
    Sum(s) / (|s| as real)
  }

  /** The sum of squared deviations of the entries of `s` from `m`. */
  function SquaredDeviations(s: seq<real>, m: real): (r: real)
    ensures r >= 0.0
  {
    if s == [] then 0.0
    else
      var d := s[0] - m;
      assert d * d >= 0.0 by {
        if d < 0.0 {
          assert d * d == (-d) * (-d);
        }
      }
      d * d + SquaredDeviations(s[1..], m)
  }

  /** The sample variance (ddof = 1) of a window of at least two entries. */
  function SampleVariance(s: seq<real>): (v: real)
    requires |s| >= 2
    ensures v >= 0.0
  {
    SquaredDeviations(s, Mean(s)) / ((|s| - 1) as real)
  }

  /** `Price.rolling(window=w, min_periods=w).std()`: the sample standard deviation of the
      trailing `w` prices, missing until `w` prices exist. The price column has no missing
      entries, so the window's count of observations is its length. */
  function RollingStd(p: seq<real>, w: nat, sqrt: real -> real): seq<Option<real>>
    requires 2 <= w
  {
    seq(|p|, t requires 0 <= t < |p| =>
      if w <= t + 1 then Some(sqrt(SampleVariance(p[t + 1 - w .. t + 1]))) else None)
  }

  /** Missing-propagating `a + k * b`. */
  function AddScaled(a: Option<real>, k: real, b: Option<real>): (r: Option<real>)
    ensures r.Some? <==> a.Some? && b.Some?
  {
    match (a, b)
    case (Some(x), Some(y)) => Some(x + k * y)
    case _ => None
  }

  /** The `SMA_20` column. */
  function Sma(p: seq<real>): seq<Option<real>>
  {
    RollingMean(Lift(p), BbWindow, BbWindow)
  }

  /** The rolling standard deviation behind the bands. */
  function Std(p: seq<real>, sqrt: real -> real): seq<Option<real>>
  {
    RollingStd(p, BbWindow, sqrt)
  }

  /** The `BB_Upper` column: the moving average plus `BbStd` standard deviations. */
  function Upper(p: seq<real>, sqrt: real -> real): (r: seq<Option<real>>)
    ensures |r| == |p|
  {
    var sma := Sma(p);
    var sd := Std(p, sqrt);
    seq(|p|, t requires 0 <= t < |p| => AddScaled(sma[t], BbStd, sd[t]))
  }

  /** The `BB_Lower` column: the moving average minus `BbStd` standard deviations. */
  function Lower(p: seq<real>, sqrt: real -> real): (r: seq<Option<real>>)
    ensures |r| == |p|
  {
    var sma := Sma(p);
    var sd := Std(p, sqrt);
    seq(|p|, t requires 0 <= t < |p| => AddScaled(sma[t], -BbStd, sd[t]))
  }

  /** The trailing Bollinger window ending at row `t`. */
  function BbWindowAt(p: seq<real>, t: nat): (win: seq<real>)
    requires BbWindow <= t + 1 <= |p|
    ensures |win| == BbWindow
  {
    p[t + 1 - BbWindow .. t + 1]
  }

  /** The moving average and both bands are missing before row 19 and present from row 19 on,
      where the average is the mean of the trailing 20 prices and the bands lie two square
      roots of their sample variance away from it. */
  lemma BandsAt(p: seq<real>, sqrt: real -> real, t: nat)
    requires t < |p|
    ensures Sma(p)[t].Some? <==> BbWindow <= t + 1
    ensures Upper(p, sqrt)[t].Some? <==> BbWindow <= t + 1
    ensures Lower(p, sqrt)[t].Some? <==> BbWindow <= t + 1
    ensures BbWindow <= t + 1 ==>
      var win := BbWindowAt(p, t);
      var sd := sqrt(SampleVariance(win));
      && Sma(p)[t].value == Mean(win)
      && Upper(p, sqrt)[t].value == Mean(win) + 2.0 * sd
      && Lower(p, sqrt)[t].value == Mean(win) - 2.0 * sd
  {
    RollingMeanFullWindow(Lift(p), BbWindow, t);
    if BbWindow <= t + 1 {
      var win := BbWindowAt(p, t);
      LiftSlice(p, t + 1 - BbWindow, t + 1);
      SumDefinedLift(win);
    }
  }

  /** A series of fewer than 20 prices has no moving average and no bands. */
  lemma ShortSeriesHasNoBands(p: seq<real>, sqrt: real -> real)
    requires |p| < BbWindow
    ensures forall t :: 0 <= t < |p| ==>
      Sma(p)[t] == None && Upper(p, sqrt)[t] == None && Lower(p, sqrt)[t] == None
  {
    forall t | 0 <= t < |p|
      ensures Sma(p)[t] == None && Upper(p, sqrt)[t] == None && Lower(p, sqrt)[t] == None
    {
      BandsAt(p, sqrt, t);
    }
  }

  /** Where the bands are present, the lower band, the average and the upper band are ordered. */
  lemma BandsOrdered(p: seq<real>, sqrt: real -> real, t: nat)
    requires IsSqrt(sqrt)
    requires BbWindow <= t + 1 <= |p|
    ensures Lower(p, sqrt)[t].value <= Sma(p)[t].value <= Upper(p, sqrt)[t].value
  {
    BandsAt(p, sqrt, t);
    var v := SampleVariance(BbWindowAt(p, t));
    assert 0.0 <= sqrt(v);
  }

  /** The squared deviations of a constant window from its own value vanish. */
  lemma {:induction false} SquaredDeviationsConstant(s: seq<real>, c: real)
    requires forall i :: 0 <= i < |s| ==> s[i] == c
    ensures SquaredDeviations(s, c) == 0.0
  {
    if s != [] {
      SquaredDeviationsConstant(s[1..], c);
    }
  }

  /** On a window of 20 equal prices the average and both bands equal that price. */
  lemma ConstantWindowBands(p: seq<real>, sqrt: real -> real, t: nat)
    requires IsSqrt(sqrt)
    requires BbWindow <= t + 1 <= |p|
    requires forall i :: t + 1 - BbWindow <= i <= t ==> p[i] == p[t]
    ensures Sma(p)[t] == Some(p[t])
    ensures Upper(p, sqrt)[t] == Some(p[t])
    ensures Lower(p, sqrt)[t] == Some(p[t])
  {
    BandsAt(p, sqrt, t);
    var win := BbWindowAt(p, t);
    assert forall i :: 0 <= i < |win| ==> win[i] == p[t];
    SumConstant(win, p[t]);
    assert Mean(win) == p[t];
    SquaredDeviationsConstant(win, p[t]);
    assert SampleVariance(win) == 0.0;
  }

  /** The square-free form of the band test: the price is below the 20-row mean by a gap whose
      square exceeds four sample variances. */
  predicate FarBelowMean(win: seq<real>, price: real)
    requires |win| >= 2
  {
    var gap := Mean(win) - price;
    0.0 < gap && gap * gap > 4.0 * SampleVariance(win)
  }

  /** A price is below the lower band exactly when it is far below the average in the sense of
      `FarBelowMean`; no square root is needed to decide it. */
  lemma BelowLowerIff(p: seq<real>, sqrt: real -> real, t: nat)
    requires IsSqrt(sqrt)
    requires BbWindow <= t + 1 <= |p|
    ensures p[t] < Lower(p, sqrt)[t].value <==> FarBelowMean(BbWindowAt(p, t), p[t])
  {
    BandsAt(p, sqrt, t);
    var win := BbWindowAt(p, t);
    var gap := Mean(win) - p[t];
    var v := SampleVariance(win);
    var sd := sqrt(v);
    assert 0.0 <= sd && sd * sd == v;
    assert p[t] < Lower(p, sqrt)[t].value <==> gap > 2.0 * sd;
    GapExceedsTwice(gap, sd);
  }

  /** For `s >= 0`, `g > 2s` exactly when `g` is positive and `g^2 > 4 s^2`. */
  lemma GapExceedsTwice(g: real, s: real)
    requires 0.0 <= s
    ensures g > 2.0 * s <==> 0.0 < g && g * g > 4.0 * (s * s)
  {
    assert g * g - 4.0 * (s * s) == (g - 2.0 * s) * (g + 2.0 * s);
    if g > 2.0 * s {
      assert g + 2.0 * s > 0.0;
    } else if 0.0 < g {
      assert (g - 2.0 * s) * (g + 2.0 * s) <= 0.0;
    }
  }
}
