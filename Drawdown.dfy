/** The running peak of the price (`cummax`) and the drawdown from it. */
module DrawdownIndicator {
  import opened Arith

  /** Every price is positive. */
  predicate AllPositive(p: seq<real>)
  {
    forall i :: 0 <= i < |p| ==> p[i] > 0.0
  }

  /** The price never falls. */
  predicate NonDecreasing(p: seq<real>)
  {
    forall i, j :: 0 <= i <= j < |p| ==> p[i] <= p[j]
  }

  /** The largest entry of a non-empty sequence, folded from the left as `cummax` scans. */
  function PrefixMax(s: seq<real>): (m: real)
    requires |s| > 0
    ensures m in s
    ensures forall i :: 0 <= i < |s| ==> s[i] <= m
  {
    if |s| == 1 then s[0]
    else
      var m := PrefixMax(s[..|s| - 1]);
      assert forall i :: 0 <= i < |s| - 1 ==> s[..|s| - 1][i] == s[i];
      if m < s[|s| - 1] then s[|s| - 1] else m
  }

  /** The `Rolling_Max` column: the running maximum of the price (`Series.cummax()`). */
  function CumMax(p: seq<real>): (r: seq<real>)
    ensures |r| == |p|
  {
    seq(|p|, t requires 0 <= t < |p| => PrefixMax(p[..t + 1]))
  }

  /** The `Drawdown` column: the price's shortfall from the running peak, relative to the peak. */
  function Drawdown(p: seq<real>): (d: seq<real>)
    requires AllPositive(p)
    ensures |d| == |p|
  {
    var cm := CumMax(p);
    seq(|p|, t requires 0 <= t < |p| =>
      assert cm[t] in p[..t + 1];
      (p[t] - cm[t]) / cm[t])
  }

  /** The running peak at `t` is the largest price of rows 0 through `t`: it is reached on one
      of them and no price up to `t` exceeds it. */
  lemma CumMaxIsPeak(p: seq<real>, t: nat)
    requires t < |p|
    ensures exists i :: 0 <= i <= t && p[i] == CumMax(p)[t]
    ensures forall i :: 0 <= i <= t ==> p[i] <= CumMax(p)[t]
  {
    var m := CumMax(p)[t];
    assert m in p[..t + 1];
    var k :| 0 <= k <= t && p[..t + 1][k] == m;
    assert p[k] == m;
    assert forall i :: 0 <= i <= t ==> p[..t + 1][i] == p[i];
  }

  /** The running peak never falls, and it is never below the current price. */
  lemma CumMaxMonotone(p: seq<real>, t: nat, u: nat)
    requires t <= u < |p|
    ensures p[t] <= CumMax(p)[t] <= CumMax(p)[u]
  {
    CumMaxIsPeak(p, t);
    CumMaxIsPeak(p, u);
  }

  /** With positive prices the running peak is positive. */
  lemma CumMaxPositive(p: seq<real>, t: nat)
    requires AllPositive(p) && t < |p|
    ensures CumMax(p)[t] > 0.0
  {
    CumMaxIsPeak(p, t);
  }

  /** With positive prices the drawdown lies in (-1, 0], and it is zero exactly on a row whose
      price equals the running peak. */
  lemma DrawdownBounds(p: seq<real>, t: nat)
    requires AllPositive(p) && t < |p|
    ensures -1.0 < Drawdown(p)[t] <= 0.0
    ensures Drawdown(p)[t] == 0.0 <==> p[t] == CumMax(p)[t]
  {
    var m := CumMax(p)[t];
    CumMaxMonotone(p, t, t);
    CumMaxPositive(p, t);
    var d := Drawdown(p)[t];
    assert d == (p[t] - m) / m;
    assert d * m == p[t] - m;
    assert (d + 1.0) * m == p[t];
    if d + 1.0 <= 0.0 {
      NonPositiveProduct(d + 1.0, m);
    }
  }

  /** A drawdown below a threshold `th` means the price is below `(1 + th)` times the peak. */
  lemma DrawdownBelow(p: seq<real>, t: nat, th: real)
    requires AllPositive(p) && t < |p|
    ensures Drawdown(p)[t] < th <==> p[t] < (1.0 + th) * CumMax(p)[t]
  {
    var m := CumMax(p)[t];
    CumMaxPositive(p, t);
    var d := Drawdown(p)[t];
    assert d * m == p[t] - m;
    assert (1.0 + th) * m == m + th * m;
    assert th * m - d * m == (th - d) * m;
    if d < th {
      ProductPositive(th - d, m);
    } else {
      NonPositiveProduct(th - d, m);
    }
  }

  /** On a price series that never falls every row is at its running peak, so the drawdown
      is zero throughout. */
  lemma NonDecreasingHasNoDrawdown(p: seq<real>)
    requires AllPositive(p) && NonDecreasing(p)
    ensures forall t :: 0 <= t < |p| ==> CumMax(p)[t] == p[t] && Drawdown(p)[t] == 0.0
  {
    forall t | 0 <= t < |p| ensures CumMax(p)[t] == p[t] && Drawdown(p)[t] == 0.0 {
      CumMaxIsPeak(p, t);
      DrawdownBounds(p, t);
    }
  }
}
