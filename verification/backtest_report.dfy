/** The backtest report (backend/backtest/backtest_report.py): a trade count, a win-rate
    heuristic, the equity curve's first-to-last change and its largest drop from a running
    peak. The curve's samples are read with `get("equity", 0.0)`; a sample that is not a
    number makes the arithmetic raise. */
module BacktestReport {
  import opened Payloads
  import Candles
  import Backtest
  import Shares

  /** A sample's equity, 0.0 when it has none. */
  function EquityOf(p: Payload): Value
  {
    Get(p, "equity", Num(0.0))
  }

  /** Every sample's equity is a number. */
  predicate AllLevels(equity: seq<Payload>)
  {
    forall i :: 0 <= i < |equity| ==> EquityOf(equity[i]).Num?
  }

  /** The curve's equity levels, in order. */
  function LevelsOf(equity: seq<Payload>): (r: seq<real>)
    requires AllLevels(equity)
    ensures |r| == |equity|
    ensures forall i :: 0 <= i < |equity| ==> EquityOf(equity[i]) == Num(r[i])
  {
    seq(|equity|, i requires 0 <= i < |equity| => EquityOf(equity[i]).n)
  }

  // ---------------------------------------------------------------------------------------
  // Win rate
  // ---------------------------------------------------------------------------------------

  /** How many trades have the given side. */
  function CountSide(trades: seq<Payload>, side: string): (r: nat)
    ensures r <= |trades|
  {
    if trades == [] then 0
    else (if Get(trades[0], "side", Null) == Str(side) then 1 else 0) + CountSide(trades[1..], side)
  }

  /** A trade is not both a BUY and a SELL, so the two counts never exceed the total. */
  lemma {:induction false} SidesFitInTotal(trades: seq<Payload>)
    ensures CountSide(trades, "BUY") + CountSide(trades, "SELL") <= |trades|
  {
    if trades != [] {
      SidesFitInTotal(trades[1..]);
      assert Str("BUY") != Str("SELL");
    }
  }

  /** The win rate: the surplus of SELL over BUY trades as a share of all trades, 0.0 when
      there is no surplus or no trade at all. */
  function Winrate(trades: seq<Payload>): (r: real)
    ensures 0.0 <= r <= 1.0
    ensures r > 0.0 <==> CountSide(trades, "SELL") > CountSide(trades, "BUY")
    ensures trades == [] ==> r == 0.0
  {
    var total := |trades|;
    var buys := CountSide(trades, "BUY");
    var sells := CountSide(trades, "SELL");
    var win := if total > 0 && sells > buys then sells - buys else 0;
    if total > 0 then Shares.ShareBounds(win, total); win as real / total as real else 0.0
  }

  /** A run of SELL trades only has a win rate of 1. */
  lemma {:induction false} AllSellsWinAll(trades: seq<Payload>)
    requires trades != []
    requires forall i :: 0 <= i < |trades| ==> Get(trades[i], "side", Null) == Str("SELL")
    ensures Winrate(trades) == 1.0
  {
    AllSellCounts(trades);
  }

  lemma {:induction false} AllSellCounts(trades: seq<Payload>)
    requires forall i :: 0 <= i < |trades| ==> Get(trades[i], "side", Null) == Str("SELL")
    ensures CountSide(trades, "SELL") == |trades| && CountSide(trades, "BUY") == 0
  {
    if trades != [] {
      assert Str("SELL") != Str("BUY");
      AllSellCounts(trades[1..]);
    }
  }

  // ---------------------------------------------------------------------------------------
  // Total return
  // ---------------------------------------------------------------------------------------

  /** The report's total return: the last sample's equity minus the first's, 0.0 for an
      empty curve; either one not being a number raises. */
  function TotalReturn(equity: seq<Payload>): (r: Result<real>)
    ensures equity == [] ==> r == Ok(0.0)
    ensures equity != [] ==>
      (r.Ok? <==> EquityOf(equity[0]).Num? && EquityOf(equity[|equity| - 1]).Num?)
    ensures r.Ok? && equity != [] ==> r.value == EquityOf(equity[|equity| - 1]).n - EquityOf(equity[0]).n
  {
    if equity == [] then Ok(0.0)
    else
      match (AsNumber(EquityOf(equity[|equity| - 1])), AsNumber(EquityOf(equity[0])))
      case (Ok(last), Ok(first)) => Ok(last - first)
      case _ => Raised(TypeError)
  }

  // ---------------------------------------------------------------------------------------
  // Maximum drawdown
  // ---------------------------------------------------------------------------------------

  /** The highest level of a non-empty curve. */
  function Peak(v: seq<real>): (r: real)
    requires v != []
    ensures forall j :: 0 <= j < |v| ==> v[j] <= r
    ensures exists j :: 0 <= j < |v| && v[j] == r
  {
    if |v| == 1 then v[0]
    else
      var p := Peak(v[..|v| - 1]);
      assert forall j :: 0 <= j < |v| - 1 ==> v[..|v| - 1][j] == v[j];
      if v[|v| - 1] > p then v[|v| - 1] else p
  }

  /** The largest drop of a level below the highest level reached up to it, or 0.0. */
  function MaxDip(v: seq<real>): (r: real)
    ensures r >= 0.0
  {
    if v == [] then 0.0
    else
      var n := |v| - 1;
      var dip := Peak(v) - v[n];
      var before := MaxDip(v[..n]);
      if dip > before then dip else before
  }

  /** The drop of level `i` below the highest level reached up to it. */
  function Drop(v: seq<real>, i: nat): real
    requires i < |v|
  {
    Peak(v[..i + 1]) - v[i]
  }

  /** A drop depends only on the levels up to it. */
  lemma DropOfPrefix(v: seq<real>, n: nat, i: nat)
    requires i < n <= |v|
    ensures Drop(v[..n], i) == Drop(v, i)
  {
    assert v[..n][..i + 1] == v[..i + 1];
  }

  /** The drop at each level is at most `MaxDip`, and `MaxDip` is one of them, or 0.0. */
  lemma {:induction false} MaxDipIsLargestDrop(v: seq<real>)
    ensures forall i :: 0 <= i < |v| ==> Drop(v, i) <= MaxDip(v)
    ensures MaxDip(v) == 0.0 || exists i :: 0 <= i < |v| && MaxDip(v) == Drop(v, i)
  {
    if v != [] {
      var n := |v| - 1;
      var u := v[..n];
      MaxDipIsLargestDrop(u);
      assert v[..n + 1] == v;
      assert Drop(v, n) == Peak(v) - v[n];
      forall i | 0 <= i < n
        ensures Drop(v, i) <= MaxDip(v)
      {
        DropOfPrefix(v, n, i);
      }
      if MaxDip(v) != 0.0 && MaxDip(v) != Drop(v, n) {
        assert MaxDip(v) == MaxDip(u);
        var i :| 0 <= i < |u| && MaxDip(u) == Drop(u, i);
        DropOfPrefix(v, n, i);
      }
    }
  }

  /** A curve that never goes down has no drawdown. */
  lemma {:induction false} NonDecreasingHasNoDip(v: seq<real>)
    requires forall i, j :: 0 <= i <= j < |v| ==> v[i] <= v[j]
    ensures MaxDip(v) == 0.0
  {
    if v != [] {
      var n := |v| - 1;
      NonDecreasingHasNoDip(v[..n]);
      assert Peak(v) == v[n];
    }
  }

  /** From 100 up to 120, down to 90, up to 130: the drawdown is 120 - 90. */
  lemma ExampleDrawdown()
    ensures MaxDip([100.0, 120.0, 90.0, 130.0]) == 30.0
  {
    var v := [100.0, 120.0, 90.0, 130.0];
    assert v[..1] == [100.0] && v[..2] == [100.0, 120.0] && v[..3] == [100.0, 120.0, 90.0];
    assert v[..2][..1] == [100.0] && v[..3][..2] == [100.0, 120.0] && v[..3][..2][..1] == [100.0];
    assert Peak([100.0]) == 100.0;
    assert Peak([100.0, 120.0]) == 120.0;
    assert Peak([100.0, 120.0, 90.0]) == 120.0;
    assert Peak(v) == 130.0;
    assert MaxDip([100.0]) == 0.0;
    assert MaxDip([100.0, 120.0]) == 0.0;
    assert MaxDip([100.0, 120.0, 90.0]) == 30.0;
  }

  /** The drawdown the report computes: the curve's largest drop, or an error when some
      sample's equity is not a number. */
  function Drawdown(equity: seq<Payload>): Result<real>
  {
    if AllLevels(equity) then Ok(MaxDip(LevelsOf(equity))) else Raised(TypeError)
  }

  /** `_max_drawdown`: the peak starts at the first sample, each sample raises the peak when
      above it, and the largest peak-minus-sample seen is kept. */
  method MaxDrawdown(equity: seq<Payload>) returns (r: Result<real>)
    ensures r == Drawdown(equity)
  {
    if |equity| == 0 {
      return Ok(0.0);
    }
    var peakValue := EquityOf(equity[0]);
    if !peakValue.Num? {
      return Raised(TypeError);
    }
    var peak := peakValue.n;
    var maxDd := 0.0;
    var i := 0;
    while i < |equity|
      invariant 0 <= i <= |equity|
      invariant forall j :: 0 <= j < i ==> EquityOf(equity[j]).Num?
      invariant i == 0 ==> peak == EquityOf(equity[0]).n && maxDd == 0.0
      invariant i > 0 ==> AllLevels(equity[..i]) && peak == Peak(LevelsOf(equity[..i])) && maxDd == MaxDip(LevelsOf(equity[..i]))
    {
      var val := EquityOf(equity[i]);
      if !val.Num? {
        return Raised(TypeError);
      }
      if val.n > peak {
        peak := val.n;
      }
      var dd := peak - val.n;
      if dd > maxDd {
        maxDd := dd;
      }
      LevelsStep(equity, i);
      i := i + 1;
    }
    assert equity[..i] == equity;
    return Ok(maxDd);
  }

  /** The levels of one more sample are the levels so far and its own. */
  lemma LevelsStep(equity: seq<Payload>, i: nat)
    requires i < |equity| && forall j :: 0 <= j <= i ==> EquityOf(equity[j]).Num?
    ensures AllLevels(equity[..i + 1])
    ensures i > 0 ==> AllLevels(equity[..i]) && LevelsOf(equity[..i + 1])[..i] == LevelsOf(equity[..i])
    ensures LevelsOf(equity[..i + 1])[i] == EquityOf(equity[i]).n
  {
  }

  // ---------------------------------------------------------------------------------------
  // The summary
  // ---------------------------------------------------------------------------------------

  datatype Summary = Summary(totalReturn: real, numTrades: nat, winrate: real, maxDrawdown: real)

  /** `summarize`: the four figures; it raises exactly when some sample's equity is not a
      number, since the drawdown reads every sample. */
  function Summarize(trades: seq<Payload>, equity: seq<Payload>): (r: Result<Summary>)
    ensures r.Ok? <==> AllLevels(equity)
    ensures r.Ok? ==> r.value.numTrades == |trades| && 0.0 <= r.value.winrate <= 1.0
    ensures r.Ok? ==> r.value.maxDrawdown >= 0.0
    ensures r.Ok? && equity == [] ==> r.value.totalReturn == 0.0 && r.value.maxDrawdown == 0.0
    ensures r.Ok? ==> r.value.winrate == Winrate(trades)
    ensures r.Ok? ==> r.value.maxDrawdown == MaxDip(LevelsOf(equity))
    ensures r.Ok? ==> TotalReturn(equity) == Ok(r.value.totalReturn)
  {
    match (Drawdown(equity), TotalReturn(equity))
    case (Ok(dd), Ok(ret)) => Ok(Summary(ret, |trades|, Winrate(trades), dd))
    case _ => Raised(TypeError)
  }

  // ---------------------------------------------------------------------------------------
  // The report of a backtest run
  // ---------------------------------------------------------------------------------------

  /** The closes of the candles, in order. */
  function Closes(candles: seq<Candles.Candle>): (r: seq<real>)
    ensures |r| == |candles|
    ensures forall i :: 0 <= i < |candles| ==> r[i] == candles[i].close
  {
    seq(|candles|, i requires 0 <= i < |candles| => candles[i].close)
  }

  /** The equity curve the backtest records, one sample per candle holding its close, can
      always be summarized: its total return is the last close minus the first and its
      drawdown is the largest drop of the closes below their running peak. */
  lemma CurveSummary(trades: seq<Payload>, candles: seq<Candles.Candle>)
    ensures var curve := Backtest.Curve(candles);
      AllLevels(curve) && LevelsOf(curve) == Closes(candles)
    ensures var r := Summarize(trades, Backtest.Curve(candles));
      && r.Ok?
      && r.value.maxDrawdown == MaxDip(Closes(candles))
      && r.value.totalReturn == (if candles == [] then 0.0 else candles[|candles| - 1].close - candles[0].close)
  {
    var curve := Backtest.Curve(candles);
    forall i | 0 <= i < |curve|
      ensures EquityOf(curve[i]) == Num(candles[i].close)
    {
      assert curve[i] == Backtest.Sample(Num(candles[i].close));
    }
    assert LevelsOf(curve) == Closes(candles);
  }

  /** The report of a finished backtest run: it never raises, counts at most one trade per
      candle, and reads total return and drawdown off the candles' closes. */
  lemma RunSummary(candles: seq<Candles.Candle>, strategyName: string, o: Backtest.Oracle)
    ensures var w := Backtest.Run(candles, strategyName, o).0;
      var r := Summarize(w.trades, w.equity);
      && r.Ok?
      && r.value.numTrades <= |candles|
      && r.value.maxDrawdown == MaxDip(Closes(candles))
      && r.value.totalReturn == (if candles == [] then 0.0 else candles[|candles| - 1].close - candles[0].close)
  {
    Backtest.RunReport(candles, strategyName, o);
    CurveSummary(Backtest.Run(candles, strategyName, o).0.trades, candles);
  }
}
