/** Sums over real sequences and the pandas rolling mean with `window` and `min_periods`,
    over a column whose entries may be missing. */
module Rolling {
  import opened Wrappers

  /** The sum of a sequence of reals. */
  function Sum(s: seq<real>): real
  {
    if s == [] then 0.0 else s[0] + Sum(s[1..])
  }

  /** Every entry of the column is present. */
  predicate AllDefined(s: seq<Option<real>>)
  {
    forall i :: 0 <= i < |s| ==> s[i].Some?
  }

  /** Every present entry of the column is non-negative. */
  predicate NonNegative(s: seq<Option<real>>)
  {
    forall i :: 0 <= i < |s| && s[i].Some? ==> s[i].value >= 0.0
  }

  /** A column without missing entries. */
  function Lift(s: seq<real>): seq<Option<real>>
  {
    seq(|s|, i requires 0 <= i < |s| => Some(s[i]))
  }

  /** The number of present entries (pandas' count of non-NaN observations). */
  function CountDefined(s: seq<Option<real>>): (n: nat)
    ensures n <= |s|
    ensures n == |s| <==> AllDefined(s)
  {
    if s == [] then 0
    else
      var rest := CountDefined(s[1..]);
      assert AllDefined(s) <==> s[0].Some? && AllDefined(s[1..]) by {
        assert forall i :: 1 <= i < |s| ==> s[i] == s[1..][i - 1];
      }
      (if s[0].Some? then 1 else 0) + rest
  }

  /** The sum of the present entries; missing entries are skipped. */
  function SumDefined(s: seq<Option<real>>): (r: real)
    ensures NonNegative(s) ==> r >= 0.0
  {
    if s == [] then 0.0
    else
      assert NonNegative(s) ==> NonNegative(s[1..]) by {
        assert forall i :: 0 <= i < |s| - 1 ==> s[1..][i] == s[i + 1];
      }
      (if s[0].Some? then s[0].value else 0.0) + SumDefined(s[1..])
  }

  /** The rows a trailing window of width `w` covers at row `t`: the `w` rows ending at `t`,
      or all rows up to `t` while fewer than `w` exist. */
  function Trailing<T>(s: seq<T>, w: nat, t: nat): (win: seq<T>)
    requires t < |s|
    ensures |win| == if w <= t + 1 then w else t + 1
  {
    s[if w <= t + 1 then t + 1 - w else 0 .. t + 1]
  }

  /** `rolling(window=w, min_periods=m).mean()` at row `t`: the mean of the present entries of
      the trailing window, or missing when fewer than `m` of them (or none) are present. */
  function MeanAt(s: seq<Option<real>>, w: nat, m: nat, t: nat): (r: Option<real>)
    requires t < |s|
    ensures r.Some? ==> m <= CountDefined(Trailing(s, w, t))
    ensures NonNegative(s) && r.Some? ==> r.value >= 0.0
  {
    var win := Trailing(s, w, t);
    var n := CountDefined(win);
    assert NonNegative(s) ==> NonNegative(win);
    if n > 0 && n >= m then Some(SumDefined(win) / (n as real)) else None
  }

  /** `rolling(window=w, min_periods=m).mean()` over a whole column. */
  function RollingMean(s: seq<Option<real>>, w: nat, m: nat): (r: seq<Option<real>>)
    requires m <= w
    ensures |r| == |s|
    ensures NonNegative(s) ==> NonNegative(r)
  {
    seq(|s|, t requires 0 <= t < |s| => MeanAt(s, w, m, t))
  }

  /** With `min_periods` equal to the window, the mean at `t` is present exactly when the
      window is full and every entry in it is present, and it is then the window's sum over `w`. */
  lemma RollingMeanFullWindow(s: seq<Option<real>>, w: nat, t: nat)
    requires 0 < w && t < |s|
    ensures RollingMean(s, w, w)[t].Some? <==> w <= t + 1 && AllDefined(s[t + 1 - w .. t + 1])
    ensures RollingMean(s, w, w)[t].Some? ==>
      w <= t + 1 && RollingMean(s, w, w)[t].value == SumDefined(s[t + 1 - w .. t + 1]) / (w as real)
  {
    var win := Trailing(s, w, t);
    if w <= t + 1 {
      assert win == s[t + 1 - w .. t + 1];
    }
  }

  /** A column without missing entries sums like the plain reals it lifts. */
  lemma {:induction false} SumDefinedLift(s: seq<real>)
    ensures SumDefined(Lift(s)) == Sum(s)
  {
    if s != [] {
      assert Lift(s)[1..] == Lift(s[1..]);
      SumDefinedLift(s[1..]);
    }
  }

  /** Lifting commutes with slicing. */
  lemma LiftSlice(s: seq<real>, a: nat, b: nat)
    requires a <= b <= |s|
    ensures Lift(s)[a..b] == Lift(s[a..b])
  {
  }

  /** The sum of a sequence all of whose entries are `c`. */
  lemma {:induction false} SumConstant(s: seq<real>, c: real)
    requires forall i :: 0 <= i < |s| ==> s[i] == c
    ensures Sum(s) == (|s| as real) * c
  {
    if s != [] {
      SumConstant(s[1..], c);
    }
  }

  /** A sum of non-negative present entries is zero exactly when every present entry is zero. */
  lemma {:induction false} SumDefinedZero(s: seq<Option<real>>)
    requires NonNegative(s)
    ensures SumDefined(s) == 0.0 <==> forall i :: 0 <= i < |s| && s[i].Some? ==> s[i].value == 0.0
  {
    if s != [] {
      assert NonNegative(s[1..]) by {
        assert forall i :: 0 <= i < |s| - 1 ==> s[1..][i] == s[i + 1];
      }
      SumDefinedZero(s[1..]);
      assert forall i :: 1 <= i < |s| ==> s[i] == s[1..][i - 1];
    }
  }

  /** A sum of non-negative present entries is at least each of them. */
  lemma {:induction false} SumDefinedAtLeast(s: seq<Option<real>>, i: nat)
    requires NonNegative(s) && i < |s| && s[i].Some?
    ensures SumDefined(s) >= s[i].value
  {
    assert NonNegative(s[1..]) by {
      assert forall k :: 0 <= k < |s| - 1 ==> s[1..][k] == s[k + 1];
    }
    if i > 0 {
      SumDefinedAtLeast(s[1..], i - 1);
    }
  }
}
