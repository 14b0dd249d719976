/** The script's assembly of the indicator table, the buy flag, the extraction of the latest
    buy rows, the empty-download guard and `dropna`. */
module Signals {
  import opened Wrappers
  import opened Config
  import opened Rolling
  import opened RsiIndicator
  import opened Bollinger
  import opened DrawdownIndicator

  /** A downloaded row: its date (as a day number) and its closing price, possibly missing. */
  datatype RawQuote = RawQuote(date: int, price: Option<real>)

  /** A row of the `Price` column after `dropna`. */
  datatype Quote = Quote(date: int, price: real)

  /** A row of the indicator table; `buySignal` is the flag after `astype(int)`, so 0 or 1. */
  datatype Row = Row(
    date: int, price: real, rsi: Option<real>, sma: Option<real>,
    bbUpper: Option<real>, bbLower: Option<real>,
    rollingMax: real, drawdown: real, buySignal: int)

  /** A reported row: the date index and the columns Price, RSI, BB_Lower and Drawdown. */
  datatype SignalRow = SignalRow(date: int, price: real, rsi: Option<real>, bbLower: Option<real>, drawdown: real)

  /** The download returned no rows. */
  datatype Error = NoData

  /** A comparison `a < b` between two columns: false whenever either side is missing. */
  function LessThan(a: Option<real>, b: Option<real>): bool
  {
    a.Some? && b.Some? && a.value < b.value
  }

  /** The buy condition on one row: RSI below the oversold level, price below the lower band
      and drawdown below the threshold, each comparison false when an operand is missing. */
  function BuyCondition(rsi: Option<real>, price: real, lower: Option<real>, dd: real): bool
  {
    LessThan(rsi, Some(RsiOversold)) && LessThan(Some(price), lower) && dd < DrawdownThreshold
  }

  /** The `Price` column. */
  function Prices(qs: seq<Quote>): (p: seq<real>)
    ensures |p| == |qs|
  {
    seq(|qs|, i requires 0 <= i < |qs| => qs[i].price)
  }

  /** Every price of the column is positive. */
  predicate PositiveQuotes(qs: seq<Quote>)
  {
    forall i :: 0 <= i < |qs| ==> qs[i].price > 0.0
  }

  /** The dates strictly increase down the table. */
  predicate DatesIncreasing(rows: seq<Row>)
  {
    forall i, j :: 0 <= i < j < |rows| ==> rows[i].date < rows[j].date
  }

  /** The indicator table built from the price column, one row per date. */
  function Frame(qs: seq<Quote>, sqrt: real -> real): (rows: seq<Row>)
    requires PositiveQuotes(qs)
    ensures |rows| == |qs|
  {
    var p := Prices(qs);
    var rsi := Rsi(p);
    var sma := Sma(p);
    var up := Upper(p, sqrt);
    var lo := Lower(p, sqrt);
    var cm := CumMax(p);
    var dd := Drawdown(p);
    seq(|qs|, t requires 0 <= t < |qs| =>
      Row(qs[t].date, p[t], rsi[t], sma[t], up[t], lo[t], cm[t], dd[t],
          if BuyCondition(rsi[t], p[t], lo[t], dd[t]) then 1 else 0))
  }

  /** The reported columns of a row. */
  function Project(r: Row): SignalRow
  {
    SignalRow(r.date, r.price, r.rsi, r.bbLower, r.drawdown)
  }

  /** `s` carries the reported columns of a flagged row of the table. */
  predicate FromFlaggedRow(rows: seq<Row>, s: SignalRow)
  {
    exists i :: 0 <= i < |rows| && rows[i].buySignal == 1 && s == Project(rows[i])
  }

  /** `DataFrame.loc` with the flag as mask and the reported columns: the projections of the
      flagged rows, in table order. */
  function Loc(rows: seq<Row>): seq<SignalRow>
  {
    if rows == [] then []
    else (if rows[0].buySignal == 1 then [Project(rows[0])] else []) + Loc(rows[1..])
  }

  /** The number of flagged rows. */
  function CountBuys(rows: seq<Row>): nat
  {
    if rows == [] then 0 else (if rows[0].buySignal == 1 then 1 else 0) + CountBuys(rows[1..])
  }

  /** `DataFrame.tail(n)`: the last `n` rows, or all of them when there are fewer. */
  function Tail<T>(s: seq<T>, n: nat): (r: seq<T>)
    ensures |r| == if |s| <= n then |s| else n
    ensures s[..|s| - |r|] + r == s
  {
    if |s| <= n then s else s[|s| - n..]
  }

  /** The reported signals: `loc` on the flag, then `tail(10)`. */
  function Signals(rows: seq<Row>): seq<SignalRow>
  {
    Tail(Loc(rows), SignalTail)
  }

  /** Every downloaded price that is present is positive. */
  predicate PositiveRaw(raw: seq<RawQuote>)
  {
    forall i :: 0 <= i < |raw| && raw[i].price.Some? ==> raw[i].price.value > 0.0
  }

  /** `DataFrame.dropna()` on the price column: the downloaded rows that carry a price, in order. */
  function DropNa(raw: seq<RawQuote>): (qs: seq<Quote>)
    ensures PositiveRaw(raw) ==> PositiveQuotes(qs)
  {
    if raw == [] then []
    else
      assert PositiveRaw(raw) ==> PositiveRaw(raw[1..]) by {
        assert forall i :: 0 <= i < |raw| - 1 ==> raw[1..][i] == raw[i + 1];
      }
      var rest := DropNa(raw[1..]);
      match raw[0].price
      case None => rest
      case Some(x) => [Quote(raw[0].date, x)] + rest
  }

  /** The whole script on a download: an empty download is an error raised before any
      indicator is computed; otherwise the latest buy rows of the table built from the
      rows that carry a price. */
  function Run(raw: seq<RawQuote>, sqrt: real -> real): (r: Result<seq<SignalRow>, Error>)
    requires PositiveRaw(raw)
    ensures r.Failure? <==> raw == []
    ensures r.Failure? ==> r.error == NoData
  {
    if raw == [] then Failure(NoData)
    else
      Success(Signals(Frame(DropNa(raw), sqrt)))
  }

  /** Row `t` of the table carries the columns computed from the price column, and its flag
      is 1 exactly when the RSI is present and below 30, the lower band is present and above
      the price, and the drawdown is below -20%; otherwise it is 0, in particular whenever the
      RSI or the lower band is missing. */
  lemma BuySignalIff(qs: seq<Quote>, sqrt: real -> real, t: nat)
    requires PositiveQuotes(qs) && t < |qs|
    ensures var row := Frame(qs, sqrt)[t];
      var p := Prices(qs);
      && row.date == qs[t].date && row.price == p[t]
      && row.rsi == Rsi(p)[t] && row.sma == Sma(p)[t]
      && row.bbUpper == Upper(p, sqrt)[t] && row.bbLower == Lower(p, sqrt)[t]
      && row.rollingMax == CumMax(p)[t] && row.drawdown == Drawdown(p)[t]
      && (row.buySignal == 0 || row.buySignal == 1)
      && (row.buySignal == 1 <==>
            && row.rsi.Some? && row.rsi.value < 30.0
            && row.bbLower.Some? && row.price < row.bbLower.value
            && row.drawdown < -0.20)
  {
  }

  /** A flagged row lies past both warm-up prefixes (row 19 or later), the price fell on some
      day of its RSI window, and the price is more than 20% below its running peak. */
  lemma BuySignalNeeds(qs: seq<Quote>, sqrt: real -> real, t: nat)
    requires PositiveQuotes(qs) && t < |qs|
    requires Frame(qs, sqrt)[t].buySignal == 1
    ensures RsiWindow <= t && BbWindow <= t + 1
    ensures var p := Prices(qs);
      exists s :: t + 1 - RsiWindow <= s <= t && p[s] < p[s - 1]
    ensures Prices(qs)[t] < 0.8 * CumMax(Prices(qs))[t]
  {
    var p := Prices(qs);
    BuySignalIff(qs, sqrt, t);
    BandsAt(p, sqrt, t);
    if t < RsiWindow {
      RsiUndefinedBefore(p, t);
    }
    RsiDefinedIff(p, t);
    DrawdownBelow(p, t, DrawdownThreshold);
  }

  /** On a window of 20 equal prices the price equals the lower band, so the row is not flagged
      whatever the RSI and the drawdown. */
  lemma ConstantWindowHasNoBuy(qs: seq<Quote>, sqrt: real -> real, t: nat)
    requires IsSqrt(sqrt) && PositiveQuotes(qs)
    requires BbWindow <= t + 1 <= |qs|
    requires forall i :: t + 1 - BbWindow <= i <= t ==> qs[i].price == qs[t].price
    ensures Frame(qs, sqrt)[t].buySignal == 0
  {
    var p := Prices(qs);
    BuySignalIff(qs, sqrt, t);
    ConstantWindowBands(p, sqrt, t);
  }

  /** On a price series that never falls no row is flagged (the drawdown is always 0). */
  lemma NonDecreasingHasNoBuy(qs: seq<Quote>, sqrt: real -> real)
    requires PositiveQuotes(qs) && NonDecreasing(Prices(qs))
    ensures forall t :: 0 <= t < |qs| ==> Frame(qs, sqrt)[t].buySignal == 0
  {
    NonDecreasingHasNoDrawdown(Prices(qs));
    forall t | 0 <= t < |qs| ensures Frame(qs, sqrt)[t].buySignal == 0 {
      BuySignalIff(qs, sqrt, t);
    }
  }

  /** With an exact square root the band test needs none: a row is flagged exactly when the
      RSI is below 30, the price is far below the 20-row mean in the sense of `FarBelowMean`,
      and the drawdown is below -20%. */
  lemma BuySignalWithoutSqrt(qs: seq<Quote>, sqrt: real -> real, t: nat)
    requires IsSqrt(sqrt) && PositiveQuotes(qs)
    requires BbWindow <= t + 1 <= |qs|
    ensures var p := Prices(qs);
      var rsi := Rsi(p)[t];
      Frame(qs, sqrt)[t].buySignal == 1 <==>
        && rsi.Some? && rsi.value < 30.0
        && FarBelowMean(BbWindowAt(p, t), p[t])
        && Drawdown(p)[t] < -0.20
  {
    var p := Prices(qs);
    BuySignalIff(qs, sqrt, t);
    BandsAt(p, sqrt, t);
    BelowLowerIff(p, sqrt, t);
  }


  /** Date order on reported rows. */
  predicate SignalDatesIncreasing(l: seq<SignalRow>)
  {
    forall j, k :: 0 <= j < k < |l| ==> l[j].date < l[k].date
  }

  /** Every reported row is the projection of a flagged row of the table. */
  lemma {:induction false} LocSound(rows: seq<Row>, j: nat)
    requires j < |Loc(rows)|
    ensures FromFlaggedRow(rows, Loc(rows)[j])
  {
    var rest := rows[1..];
    if rows[0].buySignal == 1 && j == 0 {
      assert Loc(rows)[0] == Project(rows[0]);
    } else {
      var j' := if rows[0].buySignal == 1 then j - 1 else j;
      assert Loc(rows)[j] == Loc(rest)[j'];
      LocSound(rest, j');
      var i :| 0 <= i < |rest| && rest[i].buySignal == 1 && Loc(rest)[j'] == Project(rest[i]);
      assert rows[i + 1] == rest[i];
    }
  }

  /** Every flagged row of the table is reported. */
  lemma {:induction false} LocComplete(rows: seq<Row>, i: nat)
    requires i < |rows| && rows[i].buySignal == 1
    ensures Project(rows[i]) in Loc(rows)
  {
    if i > 0 {
      LocComplete(rows[1..], i - 1);
    }
  }

  /** Every reported row is dated at or after the table's first row. */
  lemma LocDatesFrom(rows: seq<Row>, j: nat)
    requires DatesIncreasing(rows) && j < |Loc(rows)|
    ensures rows[0].date <= Loc(rows)[j].date
  {
    LocSound(rows, j);
  }

  /** The reported rows keep the table's date order. */
  lemma {:induction false} LocOrdered(rows: seq<Row>)
    requires DatesIncreasing(rows)
    ensures SignalDatesIncreasing(Loc(rows))
  {
    if rows != [] {
      var rest := rows[1..];
      assert DatesIncreasing(rest) by {
        assert forall i :: 0 <= i < |rest| ==> rest[i] == rows[i + 1];
      }
      LocOrdered(rest);
      var l := Loc(rows);
      var lr := Loc(rest);
      if rows[0].buySignal == 1 {
        assert l == [Project(rows[0])] + lr;
        forall j, k | 0 <= j < k < |l| ensures l[j].date < l[k].date {
          assert l[k] == lr[k - 1];
          if j == 0 {
            if rest != [] {
              LocDatesFrom(rest, k - 1);
              assert rows[0].date < rest[0].date;
            }
          } else {
            assert l[j] == lr[j - 1];
          }
        }
      } else {
        assert l == lr;
      }
    }
  }

  /** One reported row per flagged row. */
  lemma {:induction false} LocLength(rows: seq<Row>)
    ensures |Loc(rows)| == CountBuys(rows)
  {
    if rows != [] {
      LocLength(rows[1..]);
    }
  }

  /** The tail of date-ordered rows is date-ordered, is drawn from them, and holds every row
      dated after one of its own. */
  lemma TailKeepsLatest(l: seq<SignalRow>, n: nat)
    requires SignalDatesIncreasing(l)
    ensures SignalDatesIncreasing(Tail(l, n))
    ensures forall j :: 0 <= j < |Tail(l, n)| ==> Tail(l, n)[j] == l[|l| - |Tail(l, n)| + j]
    ensures forall k, j :: 0 <= k < |l| && 0 <= j < |Tail(l, n)| && Tail(l, n)[j].date < l[k].date ==>
      l[k] in Tail(l, n)
  {
    var tl := Tail(l, n);
    var cut := |l| - |tl|;
    assert tl == l[cut..];
    forall k, j | 0 <= k < |l| && 0 <= j < |tl| && tl[j].date < l[k].date ensures l[k] in tl {
      assert tl[j] == l[cut + j];
      assert cut + j < k;
      assert tl[k - cut] == l[k];
    }
  }

  /** Every extracted signal is the projection of a flagged row. */
  lemma SignalsSound(rows: seq<Row>, j: nat)
    requires j < |Signals(rows)|
    ensures FromFlaggedRow(rows, Signals(rows)[j])
  {
    var l := Loc(rows);
    var sig := Signals(rows);
    assert sig[j] == l[|l| - |sig| + j];
    LocSound(rows, |l| - |sig| + j);
  }

  /** A flagged row dated after an extracted signal is extracted too. */
  lemma SignalsKeepLater(rows: seq<Row>, i: nat, j: nat)
    requires DatesIncreasing(rows)
    requires i < |rows| && rows[i].buySignal == 1
    requires j < |Signals(rows)| && Signals(rows)[j].date < rows[i].date
    ensures Project(rows[i]) in Signals(rows)
  {
    var l := Loc(rows);
    LocOrdered(rows);
    TailKeepsLatest(l, SignalTail);
    LocComplete(rows, i);
    var k :| 0 <= k < |l| && l[k] == Project(rows[i]);
  }

  /** The extracted signals are the latest `min(10, k)` of the `k` flagged rows, with only the
      reported columns: each is a flagged row's projection, they are in date order, and every
      flagged row dated after one of them is among them too. */
  lemma SignalsAreLatestBuys(rows: seq<Row>)
    requires DatesIncreasing(rows)
    ensures |Signals(rows)| == if CountBuys(rows) <= SignalTail then CountBuys(rows) else SignalTail
    ensures forall j :: 0 <= j < |Signals(rows)| ==> FromFlaggedRow(rows, Signals(rows)[j])
    ensures SignalDatesIncreasing(Signals(rows))
    ensures forall i, j ::
      (0 <= i < |rows| && rows[i].buySignal == 1 && 0 <= j < |Signals(rows)| && Signals(rows)[j].date < rows[i].date)
      ==> Project(rows[i]) in Signals(rows)
  {
    LocLength(rows);
    LocOrdered(rows);
    TailKeepsLatest(Loc(rows), SignalTail);
    forall j | 0 <= j < |Signals(rows)| ensures FromFlaggedRow(rows, Signals(rows)[j]) {
      SignalsSound(rows, j);
    }
    forall i, j | 0 <= i < |rows| && rows[i].buySignal == 1 && 0 <= j < |Signals(rows)| && Signals(rows)[j].date < rows[i].date
      ensures Project(rows[i]) in Signals(rows)
    {
      SignalsKeepLater(rows, i, j);
    }
  }

  /** A table without flagged rows yields no signals. */
  lemma NoBuysNoSignals(rows: seq<Row>)
    requires forall t :: 0 <= t < |rows| ==> rows[t].buySignal == 0
    ensures Signals(rows) == []
  {
    LocLength(rows);
    NoBuysCountZero(rows);
  }

  /** A table without flagged rows counts none. */
  lemma {:induction false} NoBuysCountZero(rows: seq<Row>)
    requires forall t :: 0 <= t < |rows| ==> rows[t].buySignal == 0
    ensures CountBuys(rows) == 0
  {
    if rows != [] {
      assert rows[0].buySignal == 0;
      NoBuysCountZero(rows[1..]);
    }
  }

  /** A table of fewer than 20 rows yields no signals. */
  lemma ShortSeriesHasNoSignals(qs: seq<Quote>, sqrt: real -> real)
    requires PositiveQuotes(qs) && |qs| < BbWindow
    ensures Signals(Frame(qs, sqrt)) == []
  {
    var rows := Frame(qs, sqrt);
    forall t | 0 <= t < |rows| ensures rows[t].buySignal == 0 {
      BuySignalIff(qs, sqrt, t);
      if rows[t].buySignal == 1 {
        BuySignalNeeds(qs, sqrt, t);
      }
    }
    NoBuysNoSignals(rows);
  }

  /** A price series that never falls yields no signals. */
  lemma NonDecreasingHasNoSignals(qs: seq<Quote>, sqrt: real -> real)
    requires PositiveQuotes(qs) && NonDecreasing(Prices(qs))
    ensures Signals(Frame(qs, sqrt)) == []
  {
    NonDecreasingHasNoBuy(qs, sqrt);
    NoBuysNoSignals(Frame(qs, sqrt));
  }

  /** Every row `dropna` keeps is a downloaded row with a price. */
  lemma {:induction false} DropNaSound(raw: seq<RawQuote>, j: nat)
    requires j < |DropNa(raw)|
    ensures exists i :: 0 <= i < |raw| && raw[i] == RawQuote(DropNa(raw)[j].date, Some(DropNa(raw)[j].price))
  {
    var rest := raw[1..];
    if raw[0].price.Some? && j == 0 {
      assert raw[0] == RawQuote(DropNa(raw)[0].date, Some(DropNa(raw)[0].price));
    } else {
      var j' := if raw[0].price.Some? then j - 1 else j;
      assert DropNa(raw)[j] == DropNa(rest)[j'];
      DropNaSound(rest, j');
      var i :| 0 <= i < |rest| && rest[i] == RawQuote(DropNa(rest)[j'].date, Some(DropNa(rest)[j'].price));
      assert raw[i + 1] == rest[i];
    }
  }

  /** Every downloaded row with a price survives `dropna`. */
  lemma {:induction false} DropNaComplete(raw: seq<RawQuote>, i: nat)
    requires i < |raw| && raw[i].price.Some?
    ensures Quote(raw[i].date, raw[i].price.value) in DropNa(raw)
  {
    if i > 0 {
      DropNaComplete(raw[1..], i - 1);
    }
  }

  /** Downloaded dates strictly increase. */
  predicate RawDatesIncreasing(raw: seq<RawQuote>)
  {
    forall i, j :: 0 <= i < j < |raw| ==> raw[i].date < raw[j].date
  }

  /** `dropna` keeps the download's date order. */
  lemma {:induction false} DropNaOrdered(raw: seq<RawQuote>)
    requires RawDatesIncreasing(raw)
    ensures forall i, j :: 0 <= i < j < |DropNa(raw)| ==> DropNa(raw)[i].date < DropNa(raw)[j].date
  {
    if raw != [] {
      var rest := raw[1..];
      assert RawDatesIncreasing(rest) by {
        assert forall i :: 0 <= i < |rest| ==> rest[i] == raw[i + 1];
      }
      DropNaOrdered(rest);
      var qr := DropNa(rest);
      var qs := DropNa(raw);
      if raw[0].price.Some? {
        assert qs == [Quote(raw[0].date, raw[0].price.value)] + qr;
        forall i, j | 0 <= i < j < |qs| ensures qs[i].date < qs[j].date {
          assert qs[j] == qr[j - 1];
          if i == 0 {
            DropNaSound(rest, j - 1);
            var k :| 0 <= k < |rest| && rest[k] == RawQuote(qr[j - 1].date, Some(qr[j - 1].price));
            assert rest[k] == raw[k + 1];
          } else {
            assert qs[i] == qr[i - 1];
          }
        }
      } else {
        assert qs == qr;
      }
    }
  }

  /** A download whose rows all lack a price passes the emptiness guard, which runs before
      `dropna`, and yields an empty report rather than an error. */
  lemma AllMissingDownloadYieldsNoSignals(raw: seq<RawQuote>, sqrt: real -> real)
    requires raw != []
    requires forall i :: 0 <= i < |raw| ==> raw[i].price == None
    ensures Run(raw, sqrt) == Success([])
  {
    var qs := DropNa(raw);
    if qs != [] {
      DropNaSound(raw, 0);
    }
  }

  /** On a non-empty download with increasing dates the script reports the latest buy rows of
      a date-ordered table with one row per downloaded row that carries a price. */
  lemma RunReportsLatestBuys(raw: seq<RawQuote>, sqrt: real -> real)
    requires PositiveRaw(raw) && raw != [] && RawDatesIncreasing(raw)
    ensures var rows := Frame(DropNa(raw), sqrt);
      && DatesIncreasing(rows)
      && Run(raw, sqrt) == Success(Signals(rows))
  {
    var qs := DropNa(raw);
    DropNaOrdered(raw);
    var rows := Frame(qs, sqrt);
    assert forall t :: 0 <= t < |rows| ==> rows[t].date == qs[t].date;
  }
}
