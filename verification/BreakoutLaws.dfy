/** The breakout signals never look ahead and never contradict themselves. */
module BreakoutLaws {
  import opened Common
  import opened Config
  import opened Strategy
  import opened Breakout

  // ---------- No look-ahead ----------

  lemma RollingOfPrefix(s: seq<real>, window: nat, aggregate: seq<real> --> real, n: nat)
    requires window > 0 && n <= |s| && forall w: seq<real> :: w != [] ==> aggregate.requires(w)
    ensures Rolling(s[..n], window, aggregate) == Rolling(s, window, aggregate)[..n]
  {
    forall i | 0 <= i < n
      ensures Rolling(s[..n], window, aggregate)[i] == Rolling(s, window, aggregate)[i]
    {
      if i + 1 >= window {
        assert s[..n][i + 1 - window..i + 1] == s[i + 1 - window..i + 1];
      }
    }
  }

  lemma ShiftOfPrefix(c: Column, n: nat)
    requires n <= |c|
    ensures Shift(c[..n]) == Shift(c)[..n]
  {
  }

  lemma PriorExtremesOfPrefix(bars: seq<Candle>, window: nat, n: nat)
    requires window > 0 && n <= |bars|
    ensures PriorHigh(bars[..n], window) == PriorHigh(bars, window)[..n]
    ensures PriorLow(bars[..n], window) == PriorLow(bars, window)[..n]
  {
    assert Highs(bars[..n]) == Highs(bars)[..n];
    assert Lows(bars[..n]) == Lows(bars)[..n];
    RollingOfPrefix(Highs(bars), window, Largest, n);
    RollingOfPrefix(Lows(bars), window, Smallest, n);
    ShiftOfPrefix(Rolling(Highs(bars), window, Largest), n);
    ShiftOfPrefix(Rolling(Lows(bars), window, Smallest), n);
  }

  lemma AveragesOfPrefix(bars: seq<Candle>, window: nat, n: nat)
    requires window > 0 && n <= |bars|
    ensures AtrPct(bars[..n], window) == AtrPct(bars, window)[..n]
    ensures VolumeRatio(bars[..n], window) == VolumeRatio(bars, window)[..n]
  {
    assert TrueRanges(bars[..n]) == TrueRanges(bars)[..n];
    assert Volumes(bars[..n]) == Volumes(bars)[..n];
    RollingOfPrefix(TrueRanges(bars), window, Mean, n);
    RollingOfPrefix(Volumes(bars), window, Mean, n);
  }

  /** A bin that ended before bar `n` has its close from the first `n` bars. */
  lemma {:induction false} BinCloseOfPrefix(bars: seq<Candle>, bin: int, length: int, n: nat)
    requires length > 0 && n <= |bars|
    requires forall i :: n <= i < |bars| ==> BinOf(bars[i].timestamp, length) != bin
    ensures BinClose(bars[..n], bin, length) == BinClose(bars, bin, length)
  {
    if n < |bars| {
      var m := |bars| - 1;
      assert bars[..m][..n] == bars[..n];
      BinCloseOfPrefix(bars[..m], bin, length, n);
    } else {
      assert bars[..n] == bars;
    }
  }

  lemma {:induction false} EmaOfAgreement(a: Column, b: Column, n: nat, span: nat)
    requires n <= |a| && n <= |b| && span > 0
    requires forall i :: 0 <= i < n ==> a[i] == b[i]
    ensures EmaAfter(a, n, span) == EmaAfter(b, n, span)
  {
    if n > 0 {
      EmaOfAgreement(a, b, n - 1, span);
    }
  }

  lemma FactorsAreOrdered(a: int, b: int, c: int)
    requires c > 0 && a * c < b * c
    ensures a < b
  {
    assert (b - a) * c > 0;
  }

  lemma BinsAreMonotone(a: int, b: int, length: int)
    requires length > 0 && a <= b
    ensures BinOf(a, length) <= BinOf(b, length)
  {
    var p, q := a / length, b / length;
    assert p * length <= a && b < (q + 1) * length;
    FactorsAreOrdered(p, q + 1, length);
  }

  lemma BiasOfAgreement(a: Column, b: Column, n: nat, span: nat)
    requires n < |a| && n < |b| && span > 0
    requires forall i :: 0 <= i <= n ==> a[i] == b[i]
    ensures BiasAt(a, n, span) == BiasAt(b, n, span)
  {
    hide Quotient, EmaAfter;
    EmaOfAgreement(a, b, n + 1, span);
  }

  /** The bins before the one of bar `i` have the same closes on both series. */
  lemma CompletedBinsOfPrefix(bars: seq<Candle>, length: int, n: nat, i: nat)
    requires length > 0 && InOrder(bars) && i < n <= |bars|
    ensures var a, b, bin := TrendCloses(bars[..n], length), TrendCloses(bars, length), BinIndex(bars, i, length);
            bin < |a| && bin < |b| && forall k :: 0 <= k < bin ==> a[k] == b[k]
  {
    var bin, first := BinIndex(bars, i, length), BinOf(bars[0].timestamp, length);
    BinsAreMonotone(bars[0].timestamp, bars[i].timestamp, length);
    BinsAreMonotone(bars[i].timestamp, bars[n - 1].timestamp, length);
    BinsAreMonotone(bars[n - 1].timestamp, bars[|bars| - 1].timestamp, length);
    hide BinOf, BinClose;
    forall k | 0 <= k < bin
      ensures TrendCloses(bars[..n], length)[k] == TrendCloses(bars, length)[k]
    {
      forall j | n <= j < |bars|
        ensures BinOf(bars[j].timestamp, length) != first + k
      {
        BinsAreMonotone(bars[i].timestamp, bars[j].timestamp, length);
      }
      BinCloseOfPrefix(bars, first + k, length, n);
    }
  }

  /** The bias of a bar is read off bins that were complete before its own bin began: it is the same
      when the bars after it are not known yet. */
  lemma TrendBiasOfPrefix(bars: seq<Candle>, timeframe: Timeframe, span: nat, n: nat, i: nat)
    requires span > 0 && InOrder(bars) && i < n <= |bars|
    ensures TrendBiasAt(bars[..n], timeframe, span, i) == TrendBiasAt(bars, timeframe, span, i)
  {
    var length := timeframe.Length();
    var bin := BinIndex(bars, i, length);
    CompletedBinsOfPrefix(bars, length, n, i);
    var a, b := TrendCloses(bars[..n], length), TrendCloses(bars, length);
    hide TrendCloses, BinOf, Timeframe.Length;
    if bin > 0 {
      BiasOfAgreement(a, b, bin - 1, span);
    }
  }

  /** The signals computed on the first n bars are the first n rows of the signals computed on the
      whole series. */
  lemma NoLookAhead(p: Params, bars: seq<Candle>, n: nat)
    requires ValidParams(p) && InOrder(bars) && n <= |bars|
    ensures GenerateSignals(p, bars[..n]) == GenerateSignals(p, bars)[..n]
  {
    PriorExtremesOfPrefix(bars, p.lookback, n);
    PriorExtremesOfPrefix(bars, p.exitLookback, n);
    AveragesOfPrefix(bars, p.atrWindow, n);
    AveragesOfPrefix(bars, p.volumeWindow, n);
    hide PriorHigh, PriorLow, AtrPct, VolumeRatio, RowOf, TrendBiasAt;
    forall i | 0 <= i < n
      ensures InputsOf(p, bars[..n])[i] == InputsOf(p, bars)[i]
    {
      TrendBiasOfPrefix(bars, p.trendTimeframe, p.trendEmaWindow, n, i);
    }
  }

  // ---------- No contradiction ----------

  ghost predicate ValidBars(bars: seq<Candle>) {
    forall i :: 0 <= i < |bars| ==> 0.0 < bars[i].low <= bars[i].high
  }

  /** The extremes before a bar enclose the range of the bar just before it. */
  lemma PriorHighEncloses(bars: seq<Candle>, window: nat, i: nat)
    requires window > 0 && i < |bars|
    ensures PriorHigh(bars, window)[i].Some? ==> i > 0 && PriorHigh(bars, window)[i].value >= bars[i - 1].high
  {
    if PriorHigh(bars, window)[i].None? { return; }
    var highs := Highs(bars);
    var c := Rolling(highs, window, Largest);
    hide Largest, Rolling;
    assert Shift(c)[i] == c[i - 1];
    assert highs[i - window..i][window - 1] == bars[i - 1].high;
    assert bars[i - 1].high in highs[i - window..i];
  }

  lemma PriorLowEncloses(bars: seq<Candle>, window: nat, i: nat)
    requires window > 0 && i < |bars|
    ensures PriorLow(bars, window)[i].Some? ==>
              && i > 0 && PriorLow(bars, window)[i].value <= bars[i - 1].low
              && (ValidBars(bars) ==> PriorLow(bars, window)[i].value > 0.0)
  {
    if PriorLow(bars, window)[i].None? { return; }
    var lows := Lows(bars);
    var c := Rolling(lows, window, Smallest);
    hide Smallest, Rolling;
    assert Shift(c)[i] == c[i - 1];
    var w := lows[i - window..i];
    assert w[window - 1] == bars[i - 1].low;
    assert bars[i - 1].low in w;
    var k :| 0 <= k < |w| && w[k] == Smallest(w);
    assert w[k] == bars[i - window + k].low;
  }

  lemma BufferedUp(level: Option<real>, buffer: real)
    requires level.Some? && level.value > 0.0 && 0.0 <= buffer
    ensures Scaled(level, 1.0 + buffer).value >= level.value
  {
    assert level.value * (1.0 + buffer) == level.value + level.value * buffer;
  }

  lemma BufferedDown(level: Option<real>, buffer: real)
    requires level.Some? && level.value > 0.0 && 0.0 <= buffer
    ensures Scaled(level, 1.0 - buffer).value <= level.value
  {
    assert level.value * (1.0 - buffer) == level.value - level.value * buffer;
  }

  /** What the conditions of a row need of its columns: every level encloses the previous bar. */
  ghost predicate Enclosed(x: Inputs, previous: Candle) {
    && 0.0 < previous.low <= previous.high
    && (x.high.Some? ==> x.high.value >= previous.high)
    && (x.exitHigh.Some? ==> x.exitHigh.value >= previous.high)
    && (x.low.Some? ==> 0.0 < x.low.value <= previous.low)
    && (x.exitLow.Some? ==> x.exitLow.value <= previous.low)
  }

  lemma LevelsEnclose(p: Params, x: Inputs, previous: Candle)
    requires Enclosed(x, previous) && 0.0 <= p.bufferPct < 1.0
    ensures BreakoutLevel(p, x).Some? ==> BreakoutLevel(p, x).value >= previous.high
    ensures BreakdownLevel(p, x).Some? ==> BreakdownLevel(p, x).value <= previous.low
  {
    if x.high.Some? { BufferedUp(x.high, p.bufferPct); }
    if x.low.Some? { BufferedDown(x.low, p.bufferPct); }
    var breakout, breakdown := BreakoutLevel(p, x), BreakdownLevel(p, x);
    assert (breakout.Some? <==> x.high.Some?) && (breakdown.Some? <==> x.low.Some?);
    hide Scaled;
  }

  lemma EnclosedDoNotContradict(p: Params, x: Inputs, previous: Candle)
    requires Enclosed(x, previous) && 0.0 <= p.bufferPct < 1.0
    ensures !(EntryLong(p, x) && EntryShort(p, x))
    ensures !(EntryLong(p, x) && ExitLong(x))
    ensures !(EntryShort(p, x) && ExitShort(x))
  {
    LevelsEnclose(p, x, previous);
    hide BreakoutLevel, BreakdownLevel, BreakoutStrength, BreakdownStrength, LongExtension, ShortExtension;
  }

  lemma RowsAreEnclosed(p: Params, bars: seq<Candle>, i: nat)
    requires ValidParams(p) && ValidBars(bars) && 0 < i < |bars|
    ensures Enclosed(InputsOf(p, bars)[i], bars[i - 1])
  {
    PriorHighEncloses(bars, p.lookback, i);
    PriorHighEncloses(bars, p.exitLookback, i);
    PriorLowEncloses(bars, p.lookback, i);
    PriorLowEncloses(bars, p.exitLookback, i);
    hide PriorHigh, PriorLow, AtrPct, VolumeRatio, TrendBias, TrendBiasAt;
  }

  /** For positive prices and a buffer in [0, 1), whatever the window lengths: no bar signals both
      entries, and no bar signals an entry together with the exit of that same side. */
  lemma SignalsDoNotContradict(p: Params, bars: seq<Candle>, i: nat)
    requires ValidParams(p) && ValidBars(bars) && i < |bars| && 0.0 <= p.bufferPct < 1.0
    ensures var x := InputsOf(p, bars)[i];
            && !(EntryLong(p, x) && EntryShort(p, x))
            && !(EntryLong(p, x) && ExitLong(x))
            && !(EntryShort(p, x) && ExitShort(x))
  {
    if i > 0 {
      hide EntryLong, EntryShort, ExitLong, ExitShort;
      RowsAreEnclosed(p, bars, i);
      EnclosedDoNotContradict(p, InputsOf(p, bars)[i], bars[i - 1]);
    } else {
      hide AtrPct, VolumeRatio, TrendBias, TrendBiasAt, BreakoutStrength, BreakdownStrength, LongExtension, ShortExtension;
    }
  }

  /** So the row says what it means: it is an entry exactly when its signal is not zero, the signal
      gives the side, and an entry never comes with an exit of its own side. */
  lemma RowsAreConsistent(p: Params, bars: seq<Candle>, i: nat)
    requires ValidParams(p) && ValidBars(bars) && i < |bars| && 0.0 <= p.bufferPct < 1.0
    ensures var row := GenerateSignals(p, bars)[i];
            && (row.entry <==> row.signal != 0.0)
            && (row.entry ==> !ShouldExit(row, true, DesiredPositionSide(row)))
            && (row.entry ==> !row.exit)
            && (row.signal == 1.0 <==> EntryLong(p, InputsOf(p, bars)[i]))
            && (row.signal == -1.0 <==> EntryShort(p, InputsOf(p, bars)[i]))
  {
    SignalsDoNotContradict(p, bars, i);
    hide EntryLong, EntryShort, ExitLong, ExitShort, InputsOf, ConfidenceOf;
  }
}
