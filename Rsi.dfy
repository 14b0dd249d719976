/** The simple-moving-average RSI of iwda_signals.py: one-step differences split into gains and
    losses, their 14-row rolling means, and RSI = 100 - 100 / (1 + avg_gain / avg_loss), where a
    zero average loss is replaced by a missing value. */
module RsiIndicator {
  import opened Wrappers
  import opened Config
  import opened Rolling
  import opened Arith

  /** `Series.diff()`: the change from the previous row; missing at row 0. */
  function Diff(p: seq<real>): seq<Option<real>>
  {
    seq(|p|, t requires 0 <= t < |p| => if t == 0 then None else Some(p[t] - p[t - 1]))
  }

  /** `Series.clip(lower=lo)`; missing entries stay missing. */
  function ClipLower(s: seq<Option<real>>, lo: real): (r: seq<Option<real>>)
    ensures |r| == |s|
    ensures forall i :: 0 <= i < |s| ==> r[i].Some? == s[i].Some?
    ensures forall i :: 0 <= i < |s| && r[i].Some? ==> r[i].value >= lo
    ensures forall i :: 0 <= i < |s| && s[i].Some? ==>
              r[i].value >= s[i].value && (r[i].value == lo || r[i].value == s[i].value)
  {
    seq(|s|, i requires 0 <= i < |s| =>
      match s[i]
      case None => None
      case Some(x) => Some(if x < lo then lo else x))
  }

  /** `Series.clip(upper=hi)`; missing entries stay missing. */
  function ClipUpper(s: seq<Option<real>>, hi: real): (r: seq<Option<real>>)
    ensures |r| == |s|
    ensures forall i :: 0 <= i < |s| ==> r[i].Some? == s[i].Some?
    ensures forall i :: 0 <= i < |s| && r[i].Some? ==> r[i].value <= hi
    ensures forall i :: 0 <= i < |s| && s[i].Some? ==>
              r[i].value <= s[i].value && (r[i].value == hi || r[i].value == s[i].value)
  {
    seq(|s|, i requires 0 <= i < |s| =>
      match s[i]
      case None => None
      case Some(x) => Some(if x > hi then hi else x))
  }

  /** Unary minus on a column; missing entries stay missing. */
  function Negate(s: seq<Option<real>>): seq<Option<real>>
  {
    seq(|s|, i requires 0 <= i < |s| =>
      match s[i]
      case None => None
      case Some(x) => Some(-x))
  }

  /** The gain column: the differences clipped below at 0 (`Series.clip(lower=0)`). */
  function Gain(p: seq<real>): (g: seq<Option<real>>)
    ensures |g| == |p| && NonNegative(g)
  {
    ClipLower(Diff(p), 0.0)
  }

  /** The loss column: the differences clipped above at 0 (`Series.clip(upper=0)`), negated. */
  function Loss(p: seq<real>): (l: seq<Option<real>>)
    ensures |l| == |p| && NonNegative(l)
  {
    Negate(ClipUpper(Diff(p), 0.0))
  }

  /** `avg_gain`: the 14-row rolling mean of the gains with min_periods 14. */
  function AvgGain(p: seq<real>): (a: seq<Option<real>>)
    ensures |a| == |p| && NonNegative(a)
  {
    RollingMean(Gain(p), RsiWindow, RsiWindow)
  }

  /** `avg_loss`: the 14-row rolling mean of the losses with min_periods 14. */
  function AvgLoss(p: seq<real>): (a: seq<Option<real>>)
    ensures |a| == |p| && NonNegative(a)
  {
    RollingMean(Loss(p), RsiWindow, RsiWindow)
  }

  /** The RSI formula for a non-negative average gain and a positive average loss; it equals
      the gains' share of all movement, scaled to 100, so it lies in [0, 100). */
  function RsiValue(g: real, l: real): (r: real)
    requires 0.0 <= g && 0.0 < l
    ensures r * (g + l) == 100.0 * g
    ensures 0.0 <= r < 100.0
    ensures g == 0.0 ==> r == 0.0
  {
    var rs := g / l;
    assert rs * l == g;
    assert rs >= 0.0;
    var d := 1.0 + rs;
    assert d * l == g + l;
    var q := 100.0 / d;
    assert q * d == 100.0;
    assert 0.0 < q <= 100.0;
    assert q * (g + l) == (q * d) * l;
    100.0 - q
  }

  /** The RSI is below the oversold level 30 exactly when 7 times the average gain is below
      3 times the average loss. */
  lemma RsiOversoldIff(g: real, l: real)
    requires 0.0 <= g && 0.0 < l
    ensures RsiValue(g, l) < RsiOversold <==> 7.0 * g < 3.0 * l
  {
    var r := RsiValue(g, l);
    var s := g + l;
    assert (30.0 - r) * s == 30.0 * s - r * s;
    if r < 30.0 {
      ProductPositive(30.0 - r, s);
    } else {
      NonPositiveProduct(30.0 - r, s);
    }
  }

  /** One row of the RSI: missing when either average is missing or the average loss is 0
      (which the script replaces by a missing value), otherwise `RsiValue`. */
  function RsiAt(g: Option<real>, l: Option<real>): Option<real>
    requires g.Some? ==> g.value >= 0.0
    requires l.Some? ==> l.value >= 0.0
  {
    match l
    case None => None
    case Some(lv) =>
      if lv == 0.0 then None
      else match g
        case None => None
        case Some(gv) => Some(RsiValue(gv, lv))
  }

  /** The `RSI` column. */
  function Rsi(p: seq<real>): (r: seq<Option<real>>)
    ensures |r| == |p|
  {
    var ag := AvgGain(p);
    var al := AvgLoss(p);
    seq(|p|, t requires 0 <= t < |p| => RsiAt(ag[t], al[t]))
  }

  /** From row 1 on, the gain and the loss are present, non-negative, at most one of them is
      non-zero, and the gain minus the loss is the price change; at row 0 all three are missing. */
  lemma GainLossSplit(p: seq<real>, t: nat)
    requires t < |p|
    ensures t == 0 ==> Diff(p)[t] == None && Gain(p)[t] == None && Loss(p)[t] == None
    ensures t > 0 ==>
      && Gain(p)[t].Some? && Loss(p)[t].Some?
      && Gain(p)[t].value >= 0.0 && Loss(p)[t].value >= 0.0
      && Gain(p)[t].value * Loss(p)[t].value == 0.0
      && Gain(p)[t].value - Loss(p)[t].value == p[t] - p[t - 1]
  {
  }

  /** The gains and the losses are present on every row of a trailing RSI window that starts
      at row 1 or later. */
  lemma GainLossDefinedFrom(p: seq<real>, a: nat, b: nat)
    requires 1 <= a <= b <= |p|
    ensures AllDefined(Gain(p)[a..b]) && AllDefined(Loss(p)[a..b])
  {
    forall i | 0 <= i < b - a ensures Gain(p)[a..b][i].Some? && Loss(p)[a..b][i].Some? {
      GainLossSplit(p, a + i);
    }
  }

  /** Rows whose RSI window reaches back to row 0 have no average gain or loss. */
  lemma AveragesUndefinedBefore(p: seq<real>, t: nat)
    requires t < |p| && t < RsiWindow
    ensures AvgGain(p)[t] == None && AvgLoss(p)[t] == None
  {
    RollingMeanFullWindow(Gain(p), RsiWindow, t);
    RollingMeanFullWindow(Loss(p), RsiWindow, t);
    if RsiWindow <= t + 1 {
      assert Gain(p)[t + 1 - RsiWindow .. t + 1][0] == Gain(p)[0] == None;
      assert Loss(p)[t + 1 - RsiWindow .. t + 1][0] == Loss(p)[0] == None;
    }
  }

  /** Both averages are present from row 14 on (the difference at row 0 is missing). */
  lemma AveragesDefinedFrom(p: seq<real>, t: nat)
    requires RsiWindow <= t < |p|
    ensures AvgGain(p)[t].Some? && AvgLoss(p)[t].Some?
  {
    GainLossDefinedFrom(p, t + 1 - RsiWindow, t + 1);
    RollingMeanFullWindow(Gain(p), RsiWindow, t);
    RollingMeanFullWindow(Loss(p), RsiWindow, t);
  }

  /** The RSI is missing on every row before row 14. */
  lemma RsiUndefinedBefore(p: seq<real>, t: nat)
    requires t < |p| && t < RsiWindow
    ensures Rsi(p)[t] == None
  {
    AveragesUndefinedBefore(p, t);
  }

  /** A series of at most 14 prices has no RSI at all. */
  lemma ShortSeriesHasNoRsi(p: seq<real>)
    requires |p| <= RsiWindow
    ensures forall t :: 0 <= t < |p| ==> Rsi(p)[t] == None
  {
    forall t | 0 <= t < |p| ensures Rsi(p)[t] == None {
      RsiUndefinedBefore(p, t);
    }
  }

  /** The gain at a row after the first is the rise in price, or zero when the price did not rise. */
  lemma GainAt(p: seq<real>, t: nat)
    requires 1 <= t < |p|
    ensures Gain(p)[t] == Some(if p[t] > p[t - 1] then p[t] - p[t - 1] else 0.0)
  {
  }

  /** The loss at a row after the first is the fall in price, or zero when the price did not fall. */
  lemma LossAt(p: seq<real>, t: nat)
    requires 1 <= t < |p|
    ensures Loss(p)[t] == Some(if p[t] < p[t - 1] then p[t - 1] - p[t] else 0.0)
  {
  }

  /** The losses of a window are all zero exactly when the price did not fall inside it. */
  lemma LossWindowZeroIff(p: seq<real>, a: nat, b: nat)
    requires 1 <= a <= b <= |p|
    ensures (forall i :: 0 <= i < b - a ==> Loss(p)[a..b][i] == Some(0.0))
        <==> (forall s :: a <= s < b ==> p[s - 1] <= p[s])
  {
    var win := Loss(p)[a..b];
    forall s | a <= s < b ensures win[s - a] == Some(if p[s] < p[s - 1] then p[s - 1] - p[s] else 0.0) {
      LossAt(p, s);
    }
    if forall s :: a <= s < b ==> p[s - 1] <= p[s] {
      forall i | 0 <= i < b - a ensures win[i] == Some(0.0) {
        assert win[(a + i) - a] == win[i];
      }
    }
  }

  /** From row 14 on, the average loss is present and it is zero exactly when the price did not
      fall on any day of the trailing 14-row window. */
  lemma AvgLossZeroIff(p: seq<real>, t: nat)
    requires RsiWindow <= t < |p|
    ensures AvgLoss(p)[t].Some?
    ensures AvgLoss(p)[t].value == 0.0 <==> forall s :: t + 1 - RsiWindow <= s <= t ==> p[s - 1] <= p[s]
  {
    var lo := t + 1 - RsiWindow;
    var l := Loss(p);
    var win := l[lo .. t + 1];
    GainLossDefinedFrom(p, lo, t + 1);
    RollingMeanFullWindow(l, RsiWindow, t);
    assert AvgLoss(p)[t].value == SumDefined(win) / (RsiWindow as real);
    assert NonNegative(win);
    SumDefinedZero(win);
    LossWindowZeroIff(p, lo, t + 1);
  }

  /** From row 14 on, the RSI is present exactly when the average loss is not zero, that is,
      when the price fell on some day of the trailing 14-row window. */
  lemma RsiDefinedIff(p: seq<real>, t: nat)
    requires RsiWindow <= t < |p|
    ensures AvgLoss(p)[t].Some?
    ensures Rsi(p)[t].Some? <==> AvgLoss(p)[t].value != 0.0
    ensures Rsi(p)[t].Some? <==> exists s :: t + 1 - RsiWindow <= s <= t && p[s] < p[s - 1]
  {
    AveragesDefinedFrom(p, t);
    AvgLossZeroIff(p, t);
  }

  /** Where it is present, the RSI is 100 times the gains' share of the average movement, and
      it lies in [0, 100). */
  lemma RsiValueAt(p: seq<real>, t: nat)
    requires t < |p| && Rsi(p)[t].Some?
    ensures RsiWindow <= t
    ensures AvgLoss(p)[t].value > 0.0
    ensures Rsi(p)[t].value * (AvgGain(p)[t].value + AvgLoss(p)[t].value) == 100.0 * AvgGain(p)[t].value
    ensures 0.0 <= Rsi(p)[t].value < 100.0
  {
    if t < RsiWindow {
      RsiUndefinedBefore(p, t);
    }
  }

  /** Where it is present, the RSI is below 30 exactly when 7 times the average gain is below
      3 times the average loss. */
  lemma RsiOversoldAt(p: seq<real>, t: nat)
    requires t < |p| && Rsi(p)[t].Some?
    ensures Rsi(p)[t].value < RsiOversold <==> 7.0 * AvgGain(p)[t].value < 3.0 * AvgLoss(p)[t].value
  {
    RsiValueAt(p, t);
    RsiOversoldIff(AvgGain(p)[t].value, AvgLoss(p)[t].value);
  }
}
