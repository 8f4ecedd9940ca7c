/** The breakout strategy, column by column (app/strategies/breakout.py, app/utils/indicators.py). A
    missing value of a column is None. */
module Breakout {
  import opened Common
  import opened Config
  import opened Strategy

  datatype Candle = Candle(timestamp: int, high: real, low: real, close: real, volume: real)

  datatype Params = Params(
    lookback: nat,
    exitLookback: nat,
    bufferPct: real,
    minStrengthPct: real,
    minAtrPct: real,
    minVolumeRatio: real,
    maxExtensionPct: real,
    trendTimeframe: Timeframe,
    trendEmaWindow: nat,
    trendMarginPct: real,
    atrWindow: nat,
    volumeWindow: nat,
    allowLong: bool,
    allowShort: bool)

  predicate ValidParams(p: Params) {
    p.lookback > 0 && p.exitLookback > 0 && p.trendEmaWindow > 0 && p.atrWindow > 0 && p.volumeWindow > 0
  }

  type Column = seq<Option<real>>

  // ---------- Rolling windows ----------

  function Largest(s: seq<real>): (m: real)
    requires s != []
    ensures m in s && forall x :: x in s ==> x <= m
  {
    if |s| == 1 then s[0]
    else
      assert s == s[..|s| - 1] + [s[|s| - 1]];
      Max(Largest(s[..|s| - 1]), s[|s| - 1])
  }

  function Smallest(s: seq<real>): (m: real)
    requires s != []
    ensures m in s && forall x :: x in s ==> m <= x
  {
    if |s| == 1 then s[0]
    else
      assert s == s[..|s| - 1] + [s[|s| - 1]];
      Min(Smallest(s[..|s| - 1]), s[|s| - 1])
  }

  function Sum(s: seq<real>): real {
    if s == [] then 0.0 else Sum(s[..|s| - 1]) + s[|s| - 1]
  }

  function Mean(s: seq<real>): real
    requires s != []
  {
    Sum(s) / |s| as real
  }

  /** The aggregate of each full window that ends at a row. */
  function Rolling(s: seq<real>, window: nat, aggregate: seq<real> --> real): (r: Column)
    requires window > 0 && forall w: seq<real> :: w != [] ==> aggregate.requires(w)
    ensures |r| == |s|
    ensures forall i :: 0 <= i < |s| ==>
              r[i] == if i + 1 >= window then Some(aggregate(s[i + 1 - window..i + 1])) else None
  {
    seq(|s|, i requires 0 <= i < |s| =>
      if i + 1 >= window then Some(aggregate(s[i + 1 - window..i + 1])) else None)
  }

  function Shift(c: Column): (r: Column)
    ensures |r| == |c|
    ensures forall i :: 0 <= i < |c| ==> r[i] == if i == 0 then None else c[i - 1]
  {
    if c == [] then [] else [None] + c[..|c| - 1]
  }

  function Highs(bars: seq<Candle>): (r: seq<real>)
    ensures |r| == |bars| && forall i :: 0 <= i < |bars| ==> r[i] == bars[i].high
  {
    seq(|bars|, i requires 0 <= i < |bars| => bars[i].high)
  }

  function Lows(bars: seq<Candle>): (r: seq<real>)
    ensures |r| == |bars| && forall i :: 0 <= i < |bars| ==> r[i] == bars[i].low
  {
    seq(|bars|, i requires 0 <= i < |bars| => bars[i].low)
  }

  function Volumes(bars: seq<Candle>): (r: seq<real>)
    ensures |r| == |bars| && forall i :: 0 <= i < |bars| ==> r[i] == bars[i].volume
  {
    seq(|bars|, i requires 0 <= i < |bars| => bars[i].volume)
  }

  /** The extreme of the `window` bars before each bar. */
  function PriorHigh(bars: seq<Candle>, window: nat): (r: Column)
    requires window > 0
    ensures |r| == |bars|
  {
    Shift(Rolling(Highs(bars), window, Largest))
  }

  function PriorLow(bars: seq<Candle>, window: nat): (r: Column)
    requires window > 0
    ensures |r| == |bars|
  {
    Shift(Rolling(Lows(bars), window, Smallest))
  }

  // ---------- Volatility and volume ----------

  function TrueRange(bars: seq<Candle>, i: nat): real
    requires i < |bars|
  {
    var range := bars[i].high - bars[i].low;
    if i == 0 then range
    else Max(range, Max(Abs(bars[i].high - bars[i - 1].close), Abs(bars[i].low - bars[i - 1].close)))
  }

  function TrueRanges(bars: seq<Candle>): (r: seq<real>)
    ensures |r| == |bars| && forall i :: 0 <= i < |bars| ==> r[i] == TrueRange(bars, i)
  {
    seq(|bars|, i requires 0 <= i < |bars| => TrueRange(bars, i))
  }

  /** A quotient, with zero where it is undefined. */
  function Quotient(a: Option<real>, b: Option<real>): real {
    if a.None? || b.None? || b.value == 0.0 then 0.0 else a.value / b.value
  }

  function AtrPct(bars: seq<Candle>, window: nat): (r: seq<real>)
    requires window > 0
    ensures |r| == |bars|
  {
    var atr := Rolling(TrueRanges(bars), window, Mean);
    seq(|bars|, i requires 0 <= i < |bars| => Quotient(atr[i], Some(bars[i].close)))
  }

  function VolumeRatio(bars: seq<Candle>, window: nat): (r: seq<real>)
    requires window > 0
    ensures |r| == |bars|
  {
    var average := Rolling(Volumes(bars), window, Mean);
    seq(|bars|, i requires 0 <= i < |bars| => Quotient(Some(bars[i].volume), average[i]))
  }

  // ---------- The higher timeframe ----------

  function BinOf(timestamp: int, length: int): int
    requires length > 0
  {
    timestamp / length
  }

  /** The last close within a bin, if it has a bar. */
  function BinClose(bars: seq<Candle>, bin: int, length: int): Option<real>
    requires length > 0
  {
    if bars == [] then None
    else
      var last := bars[|bars| - 1];
      if BinOf(last.timestamp, length) == bin then Some(last.close) else BinClose(bars[..|bars| - 1], bin, length)
  }

  ghost predicate InOrder(bars: seq<Candle>) {
    forall i, j :: 0 <= i < j < |bars| ==> bars[i].timestamp <= bars[j].timestamp
  }

  /** How many bins after the first bar's bin a bar lies. */
  function BinIndex(bars: seq<Candle>, i: nat, length: int): int
    requires i < |bars| && length > 0
  {
    BinOf(bars[i].timestamp, length) - BinOf(bars[0].timestamp, length)
  }

  /** The closes of the resampled frame: one per bin from the first bar's to the last bar's. */
  function TrendCloses(bars: seq<Candle>, length: int): (r: Column)
    requires length > 0 && bars != []
    ensures BinIndex(bars, |bars| - 1, length) >= 0 ==> |r| == BinIndex(bars, |bars| - 1, length) + 1
    ensures forall b :: 0 <= b < |r| ==> r[b] == BinClose(bars, BinOf(bars[0].timestamp, length) + b, length)
  {
    var n := BinIndex(bars, |bars| - 1, length) + 1;
    seq(if n > 0 then n else 0, b => BinClose(bars, BinOf(bars[0].timestamp, length) + b, length))
  }

  /** The running state of an exponentially weighted mean without adjustment: gaps decay the weight
      of the past. */
  datatype EmaState = EmaState(mean: Option<real>, weight: real)

  function Alpha(span: nat): (a: real)
    requires span > 0
    ensures 0.0 < a <= 1.0
  {
    2.0 / (span as real + 1.0)
  }

  function EmaStep(s: EmaState, current: Option<real>, alpha: real): (r: EmaState)
    requires 0.0 < alpha <= 1.0 && s.weight >= 0.0
    ensures r.weight >= 0.0
  {
    if s.mean.None? then EmaState(current, s.weight)
    else
      var weight := s.weight * (1.0 - alpha);
      if current.None? then EmaState(s.mean, weight)
      else EmaState(Some((weight * s.mean.value + alpha * current.value) / (weight + alpha)), 1.0)
  }

  /** The state after the first `n` values of a column. */
  function EmaAfter(c: Column, n: nat, span: nat): (r: EmaState)
    requires n <= |c| && span > 0
    ensures r.weight >= 0.0
  {
    if n == 0 then EmaState(None, 1.0) else EmaStep(EmaAfter(c, n - 1, span), c[n - 1], Alpha(span))
  }

  /** How far a bin's close lies from its mean, relative to the mean. */
  function BiasAt(c: Column, b: nat, span: nat): real
    requires b < |c| && span > 0
  {
    var mean := EmaAfter(c, b + 1, span).mean;
    Quotient(if c[b].Some? && mean.Some? then Some(c[b].value - mean.value) else None, mean)
  }

  /** The bias of each bar: that of the latest bin completed before the bar's own. */
  function TrendBias(bars: seq<Candle>, timeframe: Timeframe, span: nat): (r: seq<real>)
    requires span > 0
    ensures |r| == |bars|
    ensures forall i :: 0 <= i < |bars| ==> r[i] == TrendBiasAt(bars, timeframe, span, i)
  {
    seq(|bars|, i requires 0 <= i < |bars| => TrendBiasAt(bars, timeframe, span, i))
  }

  function TrendBiasAt(bars: seq<Candle>, timeframe: Timeframe, span: nat, i: nat): real
    requires span > 0 && i < |bars|
  {
    var length := timeframe.Length();
    var closes, bin := TrendCloses(bars, length), BinIndex(bars, i, length);
    if 0 < bin <= |closes| then BiasAt(closes, bin - 1, span) else 0.0
  }

  // ---------- Signals ----------

  /** The columns that the entry and exit conditions of a row read. */
  datatype Inputs = Inputs(
    bar: Candle,
    high: Option<real>,
    low: Option<real>,
    exitHigh: Option<real>,
    exitLow: Option<real>,
    atrPct: real,
    volumeRatio: real,
    trendBias: real)

  function Clip(x: real, low: real, high: real): real {
    Min(Max(x, low), high)
  }

  function Scaled(level: Option<real>, factor: real): Option<real> {
    if level.Some? then Some(level.value * factor) else None
  }

  function Difference(a: Option<real>, b: Option<real>): Option<real> {
    if a.Some? && b.Some? then Some(a.value - b.value) else None
  }

  predicate Above(a: real, b: Option<real>) {
    b.Some? && a > b.value
  }

  predicate Below(a: real, b: Option<real>) {
    b.Some? && a < b.value
  }

  function BreakoutLevel(p: Params, x: Inputs): Option<real> {
    Scaled(x.high, 1.0 + p.bufferPct)
  }

  function BreakdownLevel(p: Params, x: Inputs): Option<real> {
    Scaled(x.low, 1.0 - p.bufferPct)
  }

  function BreakoutStrength(p: Params, x: Inputs): real {
    Max(Quotient(Difference(Some(x.bar.close), BreakoutLevel(p, x)), Some(x.bar.close)), 0.0)
  }

  function BreakdownStrength(p: Params, x: Inputs): real {
    Max(Quotient(Difference(BreakdownLevel(p, x), Some(x.bar.close)), Some(x.bar.close)), 0.0)
  }

  function LongExtension(p: Params, x: Inputs): real {
    Max(Quotient(Difference(Some(x.bar.close), BreakoutLevel(p, x)), BreakoutLevel(p, x)), 0.0)
  }

  function ShortExtension(p: Params, x: Inputs): real {
    Max(Quotient(Difference(BreakdownLevel(p, x), Some(x.bar.close)), BreakdownLevel(p, x)), 0.0)
  }

  predicate EntryLong(p: Params, x: Inputs) {
    && p.allowLong
    && Above(x.bar.close, BreakoutLevel(p, x))
    && BreakoutStrength(p, x) >= p.minStrengthPct
    && LongExtension(p, x) <= p.maxExtensionPct
    && x.atrPct >= p.minAtrPct
    && x.volumeRatio >= p.minVolumeRatio
    && x.trendBias >= p.trendMarginPct
  }

  predicate EntryShort(p: Params, x: Inputs) {
    && p.allowShort
    && Below(x.bar.close, BreakdownLevel(p, x))
    && BreakdownStrength(p, x) >= p.minStrengthPct
    && ShortExtension(p, x) <= p.maxExtensionPct
    && x.atrPct >= p.minAtrPct
    && x.volumeRatio >= p.minVolumeRatio
    && x.trendBias <= -p.trendMarginPct
  }

  predicate ExitLong(x: Inputs) {
    Below(x.bar.close, x.exitLow)
  }

  predicate ExitShort(x: Inputs) {
    Above(x.bar.close, x.exitHigh)
  }

  function SignalOf(p: Params, x: Inputs): real {
    if EntryShort(p, x) then -1.0 else if EntryLong(p, x) then 1.0 else 0.0
  }

  function ConfidenceOf(p: Params, x: Inputs): real {
    var quality := Clip(x.volumeRatio, 0.0, 3.0) * (1.0 + Clip(x.atrPct, 0.0, 0.1));
    if EntryShort(p, x) then BreakdownStrength(p, x) * quality * (1.0 + Clip(-x.trendBias, 0.0, 0.1))
    else if EntryLong(p, x) then BreakoutStrength(p, x) * quality * (1.0 + Clip(x.trendBias, 0.0, 0.1))
    else 0.0
  }

  function RowOf(p: Params, x: Inputs): SignalRow {
    var entry := EntryLong(p, x) || EntryShort(p, x);
    SignalRow(x.bar.timestamp, x.bar.high, x.bar.low, x.bar.close, 0.0, entry,
              (ExitLong(x) || ExitShort(x)) && !entry, Some(ExitLong(x)), Some(ExitShort(x)),
              SignalOf(p, x), ConfidenceOf(p, x))
  }

  function InputsOf(p: Params, bars: seq<Candle>): (r: seq<Inputs>)
    requires ValidParams(p)
    ensures |r| == |bars|
    ensures forall i :: 0 <= i < |bars| ==>
              r[i] == Inputs(bars[i], PriorHigh(bars, p.lookback)[i], PriorLow(bars, p.lookback)[i],
                             PriorHigh(bars, p.exitLookback)[i], PriorLow(bars, p.exitLookback)[i],
                             AtrPct(bars, p.atrWindow)[i], VolumeRatio(bars, p.volumeWindow)[i],
                             TrendBias(bars, p.trendTimeframe, p.trendEmaWindow)[i])
  {
    var high, low := PriorHigh(bars, p.lookback), PriorLow(bars, p.lookback);
    var exitHigh, exitLow := PriorHigh(bars, p.exitLookback), PriorLow(bars, p.exitLookback);
    var atr, volume := AtrPct(bars, p.atrWindow), VolumeRatio(bars, p.volumeWindow);
    var trend := TrendBias(bars, p.trendTimeframe, p.trendEmaWindow);
    seq(|bars|, i requires 0 <= i < |bars| =>
      Inputs(bars[i], high[i], low[i], exitHigh[i], exitLow[i], atr[i], volume[i], trend[i]))
  }

  function GenerateSignals(p: Params, bars: seq<Candle>): (r: seq<SignalRow>)
    requires ValidParams(p)
    ensures |r| == |bars|
    ensures forall i :: 0 <= i < |bars| ==> r[i] == RowOf(p, InputsOf(p, bars)[i])
  {
    var inputs := InputsOf(p, bars);
    seq(|bars|, i requires 0 <= i < |bars| => RowOf(p, inputs[i]))
  }
}
