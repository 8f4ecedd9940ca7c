/** What a ranked pass guarantees: a canonical choice, entries that were previewed, no re-entry of a
    key that was open when it began, and the position limit. */
module RankedPassLaws {
  import opened Common
  import opened Config
  import opened Strategy
  import opened Ledger
  import opened Execution
  import opened PreviewLaws
  import opened Runs
  import opened Ranking
  import opened RankedPass

  // ---------- The candidates do not depend on the enumeration ----------

  /** The call that previews a candidate. */
  function PreviewOf(pass: Pass, c: Candidate): Call {
    PreviewCall(pass, c.strategy, c.symbol, c.timeframe)
  }

  /** The combinations that yield the candidate `c`. */
  ghost predicate Yields(pass: Pass, t: Tables, taken: set<Key>, c: Candidate) {
    && KeyFor(pass, c) !in taken
    && PreviewCandidate(pass.settings, t, PreviewOf(pass, c)).PreviewEntry?
    && PreviewCandidate(pass.settings, t, PreviewOf(pass, c)).confidence == c.confidence
  }

  lemma CandidateOfYields(pass: Pass, t: Tables, taken: set<Key>, strategy: string, symbol: string, timeframe: Timeframe)
    ensures forall c :: c in CandidateOf(pass, t, taken, strategy, symbol, timeframe) <==>
              Yields(pass, t, taken, c) && c.strategy == strategy && c.symbol == symbol && c.timeframe == timeframe
    ensures |CandidateOf(pass, t, taken, strategy, symbol, timeframe)| <= 1
  {
    hide PreviewCandidate, CallFor;
  }

  lemma {:induction false} TimeframesYield(pass: Pass, t: Tables, taken: set<Key>, strategy: string, symbol: string,
                                           timeframes: seq<Timeframe>)
    requires Distinct(timeframes)
    ensures forall c :: c in OverTimeframes(pass, t, taken, strategy, symbol, timeframes) <==>
              Yields(pass, t, taken, c) && c.strategy == strategy && c.symbol == symbol && c.timeframe in timeframes
    ensures Distinct(OverTimeframes(pass, t, taken, strategy, symbol, timeframes))
  {
    hide Yields, CandidateOf;
    if timeframes != [] {
      var n := |timeframes| - 1;
      assert timeframes == timeframes[..n] + [timeframes[n]];
      TimeframesYield(pass, t, taken, strategy, symbol, timeframes[..n]);
      CandidateOfYields(pass, t, taken, strategy, symbol, timeframes[n]);
      DistinctAppend(OverTimeframes(pass, t, taken, strategy, symbol, timeframes[..n]),
                     CandidateOf(pass, t, taken, strategy, symbol, timeframes[n]));
    }
  }

  lemma DistinctAppend<T>(a: seq<T>, b: seq<T>)
    requires Distinct(a) && Distinct(b) && forall x :: x in a ==> x !in b
    ensures Distinct(a + b)
  {
    forall i, j | 0 <= i < j < |a + b|
      ensures (a + b)[i] != (a + b)[j]
    {
      if i < |a| <= j {
        assert (a + b)[i] in a && (a + b)[j] in b;
      }
    }
  }

  lemma {:induction false} SymbolsYield(pass: Pass, t: Tables, taken: set<Key>, strategy: string, symbols: seq<string>)
    requires Distinct(symbols) && Distinct(pass.timeframes)
    ensures forall c :: c in OverSymbols(pass, t, taken, strategy, symbols) <==>
              Yields(pass, t, taken, c) && c.strategy == strategy && c.symbol in symbols && c.timeframe in pass.timeframes
    ensures Distinct(OverSymbols(pass, t, taken, strategy, symbols))
  {
    hide Yields, OverTimeframes;
    if symbols != [] {
      var n := |symbols| - 1;
      assert symbols == symbols[..n] + [symbols[n]];
      SymbolsYield(pass, t, taken, strategy, symbols[..n]);
      TimeframesYield(pass, t, taken, strategy, symbols[n], pass.timeframes);
      DistinctAppend(OverSymbols(pass, t, taken, strategy, symbols[..n]),
                     OverTimeframes(pass, t, taken, strategy, symbols[n], pass.timeframes));
    }
  }

  lemma {:induction false} StrategiesYield(pass: Pass, t: Tables, taken: set<Key>, names: seq<string>)
    requires Distinct(names) && Distinct(pass.symbols) && Distinct(pass.timeframes)
    ensures forall c :: c in OverStrategies(pass, t, taken, names) <==>
              Yields(pass, t, taken, c) && c.strategy in names && c.strategy in pass.enabled
              && c.symbol in pass.symbols && c.timeframe in pass.timeframes
    ensures Distinct(OverStrategies(pass, t, taken, names))
  {
    hide Yields, OverSymbols;
    if names != [] {
      var n := |names| - 1;
      assert names == names[..n] + [names[n]];
      StrategiesYield(pass, t, taken, names[..n]);
      SymbolsYield(pass, t, taken, names[n], pass.symbols);
      DistinctAppend(OverStrategies(pass, t, taken, names[..n]),
                     if names[n] in pass.enabled then OverSymbols(pass, t, taken, names[n], pass.symbols) else []);
    }
  }

  ghost predicate SameMembers<T(!new)>(a: seq<T>, b: seq<T>) {
    forall x :: x in a <==> x in b
  }

  /** Two enumerations of the same strategies, symbols and timeframes, each without repetition, lead
      to the same choice. */
  lemma ChoiceIsCanonical(pass: Pass, other: Pass, t: Tables, taken: set<Key>)
    requires Distinct(pass.names) && Distinct(pass.symbols) && Distinct(pass.timeframes)
    requires Distinct(other.names) && Distinct(other.symbols) && Distinct(other.timeframes)
    requires SameMembers(pass.names, other.names) && SameMembers(pass.symbols, other.symbols)
    requires SameMembers(pass.timeframes, other.timeframes)
    requires other == pass.(names := other.names, symbols := other.symbols, timeframes := other.timeframes)
    ensures Chosen(pass, t, taken) == Chosen(other, t, taken)
  {
    StrategiesYield(pass, t, taken, pass.names);
    StrategiesYield(other, t, taken, other.names);
    hide PreviewCandidate, OverStrategies;
    var a, b := Candidates(pass, t, taken), Candidates(other, t, taken);
    forall c
      ensures Yields(pass, t, taken, c) == Yields(other, t, taken, c)
    {
      assert PreviewOf(pass, c) == PreviewOf(other, c);
    }
    hide Yields;
    DistinctMembers(a, b);
    RankingIsCanonical(a, b);
  }

  // ---------- Every attempt submits an entry ----------

  lemma KeysOfCalls(pass: Pass, c: Candidate, index: nat)
    ensures KeyOf(PreviewOf(pass, c)) == KeyOf(AttemptCall(pass, c, index)) == KeyFor(pass, c)
  {
  }

  /** Different combinations have different keys. */
  lemma KeysAreDistinct(pass: Pass, a: Candidate, b: Candidate)
    requires KeyFor(pass, a) == KeyFor(pass, b)
    ensures a.strategy == b.strategy && a.symbol == b.symbol && a.timeframe == b.timeframe
  {
    ParsingInvertsNaming(a.strategy, a.timeframe);
    ParsingInvertsNaming(b.strategy, b.timeframe);
    NamesAreDistinct(a.timeframe, b.timeframe);
  }

  /** Candidates that preview as entries in `t`, with different keys. */
  ghost predicate Attemptable(pass: Pass, t: Tables, chosen: seq<Candidate>) {
    && (forall k :: 0 <= k < |chosen| ==> PreviewCandidate(pass.settings, t, PreviewOf(pass, chosen[k])).PreviewEntry?)
    && (forall j, k :: 0 <= j < k < |chosen| ==> KeyFor(pass, chosen[j]) != KeyFor(pass, chosen[k]))
  }

  /** Attempting earlier candidates does not change what a call for another key previews as. */
  lemma {:induction false} AttemptsKeepOtherPreviews(pass: Pass, s: Progress, chosen: seq<Candidate>, other: Call)
    requires forall k :: 0 <= k < |chosen| ==> KeyFor(pass, chosen[k]) != KeyOf(other)
    ensures PreviewCandidate(pass.settings, AttemptAll(pass, s, chosen).world.tables, other) ==
            PreviewCandidate(pass.settings, s.world.tables, other)
  {
    if chosen != [] {
      var n := |chosen| - 1;
      AttemptsKeepOtherPreviews(pass, s, chosen[..n], other);
      KeysOfCalls(pass, chosen[n], n);
      var before := AttemptAll(pass, s, chosen[..n]);
      OtherPreviewsUnchanged(pass.settings, before.world, AttemptCall(pass, chosen[n], n), pass.clock(Attempting(n)).at, other);
      hide PreviewCandidate, Evaluate, CallFor, KeyOf;
    }
  }

  /** The call acts on a bar that is not older than the one that `earlier` acts on. */
  predicate ActsNoEarlier(settings: Settings, call: Call, earlier: Call) {
    && call.frame != [] && earlier.frame != []
    && SelectedSignalRow(settings, call).Some? && SelectedSignalRow(settings, earlier).Some?
    && SelectedSignalRow(settings, call).value.timestamp >= SelectedSignalRow(settings, earlier).value.timestamp
  }

  predicate SignalsEntry(row: SignalRow, side: PositionSide) {
    ShouldEnter(row, false) && DesiredPositionSide(row) == side
  }

  /** Looking again later, at a bar that is not older, previews the same entry exactly when the bar still
      signals it: a cooldown can only have expired. */
  lemma LaterPreview(settings: Settings, t: Tables, earlier: Call, later: Call, side: PositionSide)
    requires KeyOf(earlier) == KeyOf(later) && earlier.timeframe == later.timeframe && earlier.itype == later.itype
    requires earlier.now <= later.now && ActsNoEarlier(settings, later, earlier)
    requires PreviewCandidate(settings, t, earlier).PreviewEntry? && PreviewCandidate(settings, t, earlier).side == side
    ensures var preview := PreviewCandidate(settings, t, later);
            preview.PreviewEntry? && preview.side == side <==> SignalsEntry(SelectedSignalRow(settings, later).value, side)
    ensures SignalsEntry(SelectedSignalRow(settings, earlier).value, side)
  {
    hide SelectedSignalRow, Timeframe.Length, Timeframe.Minutes;
  }

  /** Whatever happens to the candidates before it, and whatever the clock and the data say by then: an
      attempted candidate whose bar is not older than the one it was previewed on gets as far as
      submitting an entry for the previewed side exactly when its bar signals that. In particular it
      does when the bar is still the one that was previewed. */
  lemma AttemptReachesEntry(pass: Pass, start: int, s: Progress, chosen: seq<Candidate>, k: nat)
    requires Ticking(pass.clock, start)
    requires Attemptable(pass, s.world.tables, chosen) && k < |chosen|
    ensures var before := AttemptAll(pass, s, chosen[..k]).world;
            var previewed, call := PreviewOf(pass, chosen[k]), AttemptCall(pass, chosen[k], k);
            var preview := PreviewCandidate(pass.settings, s.world.tables, previewed);
            && preview.PreviewEntry?
            && (ActsNoEarlier(pass.settings, call, previewed) ==>
                  var row := SelectedSignalRow(pass.settings, call).value;
                  && (ReachesEntry(pass.settings, before, call, pass.clock(Attempting(k)).at, preview.side)
                      <==> SignalsEntry(row, preview.side))
                  && (Some(row) == SelectedSignalRow(pass.settings, previewed) ==>
                        ReachesEntry(pass.settings, before, call, pass.clock(Attempting(k)).at, preview.side)))
  {
    var before := AttemptAll(pass, s, chosen[..k]).world;
    var previewed, call := PreviewOf(pass, chosen[k]), AttemptCall(pass, chosen[k], k);
    var side := PreviewCandidate(pass.settings, s.world.tables, previewed).side;
    KeysOfCalls(pass, chosen[k], k);
    AttemptsKeepOtherPreviews(pass, s, chosen[..k], call);
    assert Precedes(Previewing(chosen[k].strategy, chosen[k].symbol, chosen[k].timeframe), Attempting(k));
    assert previewed.now <= call.now && previewed.timeframe == call.timeframe && previewed.itype == call.itype;
    hide PreviewCandidate, ReachesEntry, AttemptAll, PreviewOf, AttemptCall, SignalsEntry, Ticking;
    if ActsNoEarlier(pass.settings, call, previewed) {
      LaterPreview(pass.settings, s.world.tables, previewed, call, side);
      PreviewAgreesWithEvaluation(pass.settings, before, call, pass.clock(Attempting(k)).at, side);
    }
  }

  /** What the pass chooses can be attempted: at most the free slots, each previewed as an entry,
      none with a key that was taken. */
  lemma ChoiceIsAttemptable(pass: Pass, t: Tables, taken: set<Key>)
    requires Distinct(pass.names) && Distinct(pass.symbols) && Distinct(pass.timeframes)
    ensures var chosen := Chosen(pass, t, taken);
            && Attemptable(pass, t, chosen)
            && |chosen| <= FreeSlots(pass.settings, t)
            && forall k :: 0 <= k < |chosen| ==> KeyFor(pass, chosen[k]) !in taken
  {
    hide Candidates, RankEntryCandidates, Attemptable, KeyFor, FreeSlots;
    RankedIsAttemptable(pass, t, taken);
    PrefixIsAttemptable(pass, t, RankEntryCandidates(Candidates(pass, t, taken)), |Chosen(pass, t, taken)|);
  }

  lemma PrefixIsAttemptable(pass: Pass, t: Tables, chosen: seq<Candidate>, n: nat)
    requires n <= |chosen| && Attemptable(pass, t, chosen)
    ensures Attemptable(pass, t, chosen[..n])
  {
    hide PreviewCandidate, PreviewOf, KeyFor;
  }

  lemma RankedIsAttemptable(pass: Pass, t: Tables, taken: set<Key>)
    requires Distinct(pass.names) && Distinct(pass.symbols) && Distinct(pass.timeframes)
    ensures var ranked := RankEntryCandidates(Candidates(pass, t, taken));
            Attemptable(pass, t, ranked) && forall k :: 0 <= k < |ranked| ==> KeyFor(pass, ranked[k]) !in taken
  {
    RankedYields(pass, t, taken);
    hide Yields, PreviewCandidate, Candidates, RankEntryCandidates, PreviewOf, KeyFor;
    var ranked := RankEntryCandidates(Candidates(pass, t, taken));
    forall k | 0 <= k < |ranked|
      ensures KeyFor(pass, ranked[k]) !in taken
      ensures PreviewCandidate(pass.settings, t, PreviewOf(pass, ranked[k])).PreviewEntry?
    {
      YieldedPreviews(pass, t, taken, ranked[k]);
    }
    forall j, k | 0 <= j < k < |ranked|
      ensures KeyFor(pass, ranked[j]) != KeyFor(pass, ranked[k])
    {
      YieldedKeysDiffer(pass, t, taken, ranked[j], ranked[k]);
    }
  }

  /** Free slots go to the most confident: no candidate that is left out is more confident than one
      that is attempted, and none is left out while a slot is free. */
  lemma BestAreChosen(pass: Pass, t: Tables, taken: set<Key>, c: Candidate)
    requires c in Candidates(pass, t, taken) && c !in Chosen(pass, t, taken)
    ensures |Chosen(pass, t, taken)| == FreeSlots(pass.settings, t)
    ensures forall d :: d in Chosen(pass, t, taken) ==> d.confidence >= c.confidence
  {
    hide Candidates, RankEntryCandidates, FreeSlots;
    var all := Candidates(pass, t, taken);
    var ranked := RankEntryCandidates(all);
    assert c in multiset(all) && c in multiset(ranked);
    var j :| 0 <= j < |ranked| && ranked[j] == c;
    var chosen := Chosen(pass, t, taken);
    assert forall i :: 0 <= i < |chosen| ==> chosen[i] == ranked[i] && chosen[i] != c;
    forall d | d in Chosen(pass, t, taken)
      ensures d.confidence >= c.confidence
    {
      var i :| 0 <= i < |chosen| && chosen[i] == d;
      assert NotAfter(ranked[i], ranked[j]);
    }
  }

  lemma RankedYields(pass: Pass, t: Tables, taken: set<Key>)
    requires Distinct(pass.names) && Distinct(pass.symbols) && Distinct(pass.timeframes)
    ensures var ranked := RankEntryCandidates(Candidates(pass, t, taken));
            Distinct(ranked) && forall k :: 0 <= k < |ranked| ==> Yields(pass, t, taken, ranked[k])
  {
    hide Yields, OverStrategies, RankEntryCandidates;
    var all := Candidates(pass, t, taken);
    var ranked := RankEntryCandidates(all);
    StrategiesYield(pass, t, taken, pass.names);
    RearrangedIsDistinct(all, ranked);
    forall k | 0 <= k < |ranked|
      ensures Yields(pass, t, taken, ranked[k])
    {
      assert ranked[k] in multiset(ranked);
      assert ranked[k] in all;
    }
  }

  lemma YieldedPreviews(pass: Pass, t: Tables, taken: set<Key>, c: Candidate)
    requires Yields(pass, t, taken, c)
    ensures KeyFor(pass, c) !in taken
    ensures PreviewCandidate(pass.settings, t, PreviewOf(pass, c)).PreviewEntry?
  {
    hide PreviewCandidate, CallFor, KeyFor;
  }

  lemma YieldedKeysDiffer(pass: Pass, t: Tables, taken: set<Key>, a: Candidate, b: Candidate)
    requires Yields(pass, t, taken, a) && Yields(pass, t, taken, b) && a != b
    ensures KeyFor(pass, a) != KeyFor(pass, b)
  {
    hide PreviewCandidate, CallFor, KeyFor;
    if KeyFor(pass, a) == KeyFor(pass, b) {
      KeysAreDistinct(pass, a, b);
    }
  }

  lemma TwoOccurrences<T>(s: seq<T>, j: nat, k: nat)
    requires j < k < |s| && s[j] == s[k]
    ensures multiset(s)[s[j]] >= 2
  {
    assert s == s[..k] + s[k..];
    assert s[j] in s[..k] && s[k..][0] == s[j];
  }

  lemma RearrangedIsDistinct<T>(all: seq<T>, other: seq<T>)
    requires Distinct(all) && multiset(other) == multiset(all)
    ensures Distinct(other)
  {
    forall j, k | 0 <= j < k < |other|
      ensures other[j] != other[k]
    {
      OccursOnce(all, other[j]);
      if other[j] == other[k] {
        TwoOccurrences(other, j, k);
      }
    }
  }

  // ---------- The position limit ----------

  lemma EvaluateIsSafe(settings: Settings, w: World, call: Call, clock: int, at: int)
    requires Safe(settings, w.tables.positions, clock) && clock <= at
    ensures Safe(settings, Evaluate(settings, w, call, at).0.tables.positions, at)
  {
    hide Safe, Evaluate, ChangeOf;
    ActionIsSafe(settings, w, EvaluateCall(call, at), clock);
  }

  /** Safe at some time up to the beginning of a call. */
  ghost predicate SafeBefore(pass: Pass, positions: seq<PositionRow>, moment: Moment) {
    exists clock :: clock <= pass.clock(moment).now && Safe(pass.settings, positions, clock)
  }

  /** A call that begins in a safe state leaves one to every later call. */
  lemma CallIsSafe(pass: Pass, start: int, w: World, call: Call, moment: Moment, next: Moment)
    requires Ticking(pass.clock, start) && Precedes(moment, next) && SafeBefore(pass, w.tables.positions, moment)
    ensures SafeBefore(pass, w.tables.positions, next)
    ensures SafeBefore(pass, Evaluate(pass.settings, w, call, pass.clock(moment).at).0.tables.positions, next)
  {
    hide Safe, Evaluate;
    var clock :| clock <= pass.clock(moment).now && Safe(pass.settings, w.tables.positions, clock);
    EvaluateIsSafe(pass.settings, w, call, clock, pass.clock(moment).at);
  }

  lemma {:induction false} ManagementIsSafe(pass: Pass, start: int, w: World, keys: seq<Key>, next: Moment)
    requires Ticking(pass.clock, start) && Safe(pass.settings, w.tables.positions, start)
    requires next.Managing? ==> |keys| <= next.index
    ensures SafeBefore(pass, ManageAll(pass, Progress(w, false), keys).world.tables.positions, next)
  {
    hide Safe, Evaluate, CallFor, ParseInstanceName;
    if keys != [] {
      var n := |keys| - 1;
      ManagementIsSafe(pass, start, w, keys[..n], Managing(n));
      hide SafeBefore, Ticking;
      var s := ManageAll(pass, Progress(w, false), keys[..n]);
      var (strategy, name) := ParseInstanceName(keys[n].strategy);
      var timeframe := if TimeframeNamed(name).Some? then TimeframeNamed(name).value else M15;
      CallIsSafe(pass, start, s.world, CallFor(pass, Managing(n), strategy, keys[n].symbol, timeframe, keys[n].itype),
                 Managing(n), next);
    }
  }

  lemma {:induction false} AttemptsAreSafe(pass: Pass, start: int, s: Progress, chosen: seq<Candidate>, next: Moment)
    requires Ticking(pass.clock, start) && SafeBefore(pass, s.world.tables.positions, Attempting(0))
    requires next.Attempting? && |chosen| <= next.index
    ensures SafeBefore(pass, AttemptAll(pass, s, chosen).world.tables.positions, next)
  {
    hide Safe, Evaluate, CallFor;
    if chosen == [] {
      if next.index > 0 {
        CallIsSafe(pass, start, s.world, AttemptCall(pass, Candidate(0.0, "", M1, ""), 0), Attempting(0), next);
      }
    } else {
      var n := |chosen| - 1;
      AttemptsAreSafe(pass, start, s, chosen[..n], Attempting(n));
      CallIsSafe(pass, start, AttemptAll(pass, s, chosen[..n]).world, AttemptCall(pass, chosen[n], n), Attempting(n), next);
    }
  }

  /** A pass that begins in a safe state ends in one, however long its calls take: in particular with no
      more open positions than the limit allows. */
  lemma PassIsBounded(pass: Pass, w: World, start: int)
    requires Ticking(pass.clock, start) && Safe(pass.settings, w.tables.positions, start)
    ensures CountOpen(RunPass(pass, w).world.tables.positions) <= Slots(pass.settings)
  {
    var keys := ManagedKeys(w.tables.positions);
    var managed := ManageAll(pass, Progress(w, false), keys);
    ManagementIsSafe(pass, start, w, keys, Attempting(0));
    var chosen := Chosen(pass, managed.world.tables, OpenKeys(w.tables.positions));
    AttemptsAreSafe(pass, start, managed, chosen, Attempting(|chosen|));
    hide ManageAll, AttemptAll, Chosen, ManagedKeys, OpenKeys, CountOpen, Ticking;
  }
}
