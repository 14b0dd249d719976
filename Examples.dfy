/** A worked series: sixteen prices that rise once and then fall steadily. */
module Examples {
  import opened Wrappers
  import opened Config
  import opened Rolling
  import opened RsiIndicator

  /** The sixteen prices. */
  function Declining(): (p: seq<real>)
    ensures |p| == 16
  {
    [100.0, 102.0, 101.0, 99.0, 95.0, 90.0, 85.0, 80.0, 76.0, 70.0, 65.0, 60.0, 55.0, 50.0, 45.0, 40.0]
  }

  /** The shape of the series that the RSI depends on: a rise of 2 on row 1, a fall of 5 on
      row 5, and no rise after row 1. */
  predicate DecliningShape(p: seq<real>)
  {
    && |p| == 16
    && p[1] - p[0] == 2.0
    && p[4] - p[5] == 5.0
    && forall s :: 2 <= s < 16 ==> p[s] <= p[s - 1]
  }

  /** The sixteen prices have that shape. */
  lemma DecliningHasShape()
    ensures DecliningShape(Declining())
  {
  }

  /** The only gain of the series is on row 1. */
  lemma DecliningGains(p: seq<real>)
    requires DecliningShape(p)
    ensures Gain(p)[1] == Some(2.0)
    ensures forall s :: 2 <= s < 16 ==> Gain(p)[s] == Some(0.0)
  {
    GainAt(p, 1);
    forall s | 2 <= s < 16 ensures Gain(p)[s] == Some(0.0) {
      GainAt(p, s);
    }
  }

  /** The average gain is 2/14 on row 14 and zero on row 15. */
  lemma DecliningAverageGains(p: seq<real>)
    requires DecliningShape(p)
    ensures AvgGain(p)[14] == Some(2.0 / 14.0)
    ensures AvgGain(p)[15] == Some(0.0)
  {
    DecliningGains(p);
    AveragesDefinedFrom(p, 14);
    AveragesDefinedFrom(p, 15);
    RollingMeanFullWindow(Gain(p), RsiWindow, 14);
    RollingMeanFullWindow(Gain(p), RsiWindow, 15);
    var g14 := Gain(p)[1..15];
    var g15 := Gain(p)[2..16];
    assert g14[1..] == g15[..13];
    forall i | 0 <= i < |g15| ensures g15[i] == Some(0.0) {
      assert g15[i] == Gain(p)[i + 2];
    }
    SumDefinedZero(g15);
    SumDefinedZero(g14[1..]);
  }

  /** The average loss on row 14 is at least 5/14 (the fall on row 5). */
  lemma DecliningAverageLoss(p: seq<real>)
    requires DecliningShape(p)
    ensures AvgLoss(p)[14].Some? && AvgLoss(p)[14].value >= 5.0 / 14.0
  {
    AveragesDefinedFrom(p, 14);
    RollingMeanFullWindow(Loss(p), RsiWindow, 14);
    var l14 := Loss(p)[1..15];
    LossAt(p, 5);
    assert l14[4] == Loss(p)[5] == Some(5.0);
    SumDefinedAtLeast(l14, 4);
  }

  /** On a series of that shape the RSI is missing on rows 0 to 13 and present and oversold (below
      30) on rows 14 and 15. */
  lemma DecliningShapeRsi(p: seq<real>)
    requires DecliningShape(p)
    ensures forall t :: 0 <= t < RsiWindow ==> Rsi(p)[t] == None
    ensures Rsi(p)[14].Some? && Rsi(p)[14].value < RsiOversold
    ensures Rsi(p)[15].Some? && Rsi(p)[15].value < RsiOversold
  {
    forall t | 0 <= t < RsiWindow ensures Rsi(p)[t] == None {
      RsiUndefinedBefore(p, t);
    }
    assert p[5] < p[4];
    RsiDefinedIff(p, 14);
    RsiDefinedIff(p, 15);
    DecliningAverageGains(p);
    DecliningAverageLoss(p);
    RsiOversoldAt(p, 14);
    RsiValueAt(p, 15);
    RsiOversoldAt(p, 15);
  }

  /** On the sixteen prices the RSI is missing on rows 0 to 13 and present and oversold (below
      30) on rows 14 and 15. */
  lemma DecliningRsi()
    ensures forall t :: 0 <= t < RsiWindow ==> Rsi(Declining())[t] == None
    ensures Rsi(Declining())[14].Some? && Rsi(Declining())[14].value < RsiOversold
    ensures Rsi(Declining())[15].Some? && Rsi(Declining())[15].value < RsiOversold
  {
    DecliningHasShape();
    DecliningShapeRsi(Declining());
  }
}
