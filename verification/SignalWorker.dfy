/** The ranked pass of the signal worker over the execution service (app/workers/tasks.py). */
module SignalWorker {
  import opened Ledger
  import opened Database
  import opened Execution
  import opened Ranking
  import opened RankedPass
  import ExecutionService

  lemma {:induction false} StoppedStays(pass: Pass, s: Progress, keys: seq<Key>, i: nat)
    requires i <= |keys| && ManageAll(pass, s, keys[..i]).stopped
    ensures ManageAll(pass, s, keys) == ManageAll(pass, s, keys[..i])
  {
    hide Evaluate, CallFor, ParseInstanceName, TimeframeNamed, StopsPass;
    if i == |keys| {
      assert keys[..i] == keys;
    } else {
      var n := |keys| - 1;
      assert keys[..n][..i] == keys[..i];
      StoppedStays(pass, s, keys[..n], i);
    }
  }

  lemma {:induction false} StoppedAttemptsStay(pass: Pass, s: Progress, chosen: seq<Candidate>, i: nat)
    requires i <= |chosen| && AttemptAll(pass, s, chosen[..i]).stopped
    ensures AttemptAll(pass, s, chosen) == AttemptAll(pass, s, chosen[..i])
  {
    hide Evaluate, AttemptCall, StopsPass;
    if i == |chosen| {
      assert chosen[..i] == chosen;
    } else {
      var n := |chosen| - 1;
      assert chosen[..n][..i] == chosen[..i];
      StoppedAttemptsStay(pass, s, chosen[..n], i);
    }
  }

  /** Evaluates the strategy of one position, unless its strategy is not registered. */
  method ManagePosition(service: ExecutionService.Service, pass: Pass, key: Key, index: nat) returns (stopped: bool)
    requires service.Valid() && service.db.Valid() && pass.settings == service.settings
    modifies service.db, service.db.state, service.db.positions, service.exchange
    ensures service.db.Valid()
    ensures forall i :: 0 <= i < |service.db.positions| ==>
              service.db.positions[i] in old(service.db.positions) || fresh(service.db.positions[i])
    ensures Progress(service.State(), stopped) == ManageOne(pass, Progress(old(service.State()), false), key, index)
  {
    hide Evaluate, StopsPass, CallFor, ParseInstanceName, TimeframeNamed, RowsOf;
    var (strategy, name) := ParseInstanceName(key.strategy);
    if strategy !in pass.names { return false; }
    var timeframe := TimeframeNamed(name);
    if timeframe.None? { return true; }
    var call := CallFor(pass, Managing(index), strategy, key.symbol, timeframe.value, key.itype);
    var outcome := service.EvaluateStrategy(call, pass.clock(Managing(index)).at);
    stopped := StopsPass(outcome);
  }

  /** Evaluates the strategy of every position that is open as the pass begins. */
  method ManageOpenPositions(service: ExecutionService.Service, pass: Pass, keys: seq<Key>) returns (stopped: bool)
    requires service.Valid() && service.db.Valid() && pass.settings == service.settings
    modifies service.db, service.db.state, service.db.positions, service.exchange
    ensures service.db.Valid()
    ensures forall i :: 0 <= i < |service.db.positions| ==>
              service.db.positions[i] in old(service.db.positions) || fresh(service.db.positions[i])
    ensures Progress(service.State(), stopped) == ManageAll(pass, Progress(old(service.State()), false), keys)
  {
    hide ManageOne, RowsOf;
    ghost var start := Progress(service.State(), false);
    stopped := false;
    var i := 0;
    while i < |keys| && !stopped
      invariant 0 <= i <= |keys| && service.db.Valid()
      invariant forall k :: 0 <= k < |service.db.positions| ==>
                  service.db.positions[k] in old(service.db.positions) || fresh(service.db.positions[k])
      invariant Progress(service.State(), stopped) == ManageAll(pass, start, keys[..i])
      decreases |keys| - i
    {
      assert keys[..i + 1][..i] == keys[..i];
      stopped := ManagePosition(service, pass, keys[i], i);
      i := i + 1;
    }
    if stopped {
      StoppedStays(pass, start, keys, i);
    } else {
      assert keys[..i] == keys;
    }
  }

  /** Previews every enabled strategy in every market whose key was not open. */
  method FindCandidates(service: ExecutionService.Service, pass: Pass, taken: set<Key>) returns (candidates: seq<Candidate>)
    requires service.Valid() && pass.settings == service.settings
    ensures candidates == Candidates(pass, service.db.Tables(), taken)
  {
    hide OverSymbols, RowsOf;
    ghost var t := service.db.Tables();
    candidates := [];
    var i := 0;
    while i < |pass.names|
      invariant 0 <= i <= |pass.names|
      invariant candidates == OverStrategies(pass, t, taken, pass.names[..i])
    {
      var name := pass.names[i];
      assert pass.names[..i + 1][..i] == pass.names[..i];
      if name in pass.enabled {
        var found := FindInSymbols(service, pass, taken, name);
        candidates := candidates + found;
      }
      i := i + 1;
    }
    assert pass.names[..i] == pass.names;
  }

  method FindInSymbols(service: ExecutionService.Service, pass: Pass, taken: set<Key>, strategy: string)
    returns (candidates: seq<Candidate>)
    requires service.Valid() && pass.settings == service.settings
    ensures candidates == OverSymbols(pass, service.db.Tables(), taken, strategy, pass.symbols)
  {
    hide OverTimeframes, RowsOf;
    ghost var t := service.db.Tables();
    candidates := [];
    var j := 0;
    while j < |pass.symbols|
      invariant 0 <= j <= |pass.symbols|
      invariant candidates == OverSymbols(pass, t, taken, strategy, pass.symbols[..j])
    {
      var symbol := pass.symbols[j];
      assert pass.symbols[..j + 1][..j] == pass.symbols[..j];
      var found := FindInTimeframes(service, pass, taken, strategy, symbol);
      candidates := candidates + found;
      j := j + 1;
    }
    assert pass.symbols[..j] == pass.symbols;
  }

  method FindInTimeframes(service: ExecutionService.Service, pass: Pass, taken: set<Key>, strategy: string, symbol: string)
    returns (candidates: seq<Candidate>)
    requires service.Valid() && pass.settings == service.settings
    ensures candidates == OverTimeframes(pass, service.db.Tables(), taken, strategy, symbol, pass.timeframes)
  {
    hide PreviewCandidate, PreviewCall, InstanceName, RowsOf;
    ghost var t := service.db.Tables();
    candidates := [];
    var k := 0;
    while k < |pass.timeframes|
      invariant 0 <= k <= |pass.timeframes|
      invariant candidates == OverTimeframes(pass, t, taken, strategy, symbol, pass.timeframes[..k])
    {
      var timeframe := pass.timeframes[k];
      assert pass.timeframes[..k + 1][..k] == pass.timeframes[..k];
      if Key(InstanceName(strategy, timeframe), symbol, pass.itype) !in taken {
        var preview := service.PreviewStrategyCandidate(PreviewCall(pass, strategy, symbol, timeframe));
        if preview.PreviewEntry? {
          candidates := candidates + [Candidate(preview.confidence, symbol, timeframe, strategy)];
        }
      }
      k := k + 1;
    }
    assert pass.timeframes[..k] == pass.timeframes;
  }

  /** Attempts to enter the candidates in their order. */
  method AttemptEntries(service: ExecutionService.Service, pass: Pass, chosen: seq<Candidate>) returns (stopped: bool)
    requires service.Valid() && service.db.Valid() && pass.settings == service.settings
    modifies service.db, service.db.state, service.db.positions, service.exchange
    ensures service.db.Valid()
    ensures forall i :: 0 <= i < |service.db.positions| ==>
              service.db.positions[i] in old(service.db.positions) || fresh(service.db.positions[i])
    ensures Progress(service.State(), stopped) == AttemptAll(pass, Progress(old(service.State()), false), chosen)
  {
    hide Evaluate, StopsPass, AttemptCall, RowsOf;
    ghost var start := Progress(service.State(), false);
    stopped := false;
    var i := 0;
    while i < |chosen| && !stopped
      invariant 0 <= i <= |chosen| && service.db.Valid()
      invariant forall k :: 0 <= k < |service.db.positions| ==>
                  service.db.positions[k] in old(service.db.positions) || fresh(service.db.positions[k])
      invariant Progress(service.State(), stopped) == AttemptAll(pass, start, chosen[..i])
      decreases |chosen| - i
    {
      assert chosen[..i + 1][..i] == chosen[..i];
      var outcome := service.EvaluateStrategy(AttemptCall(pass, chosen[i], i), pass.clock(Attempting(i)).at);
      stopped := StopsPass(outcome);
      i := i + 1;
    }
    if stopped {
      StoppedAttemptsStay(pass, start, chosen, i);
    } else {
      assert chosen[..i] == chosen;
    }
  }

  /** The pass, as the functional RunPass specifies it. */
  method EvaluateSignalsWithRanking(service: ExecutionService.Service, pass: Pass) returns (stopped: bool)
    requires service.Valid() && service.db.Valid() && pass.settings == service.settings
    modifies service.db, service.db.state, service.db.positions, service.exchange
    ensures service.db.Valid()
    ensures Progress(service.State(), stopped) == RunPass(pass, old(service.State()))
  {
    hide ManageAll, Attempt, Candidates, RankEntryCandidates, OpenKeys, ManagedKeys, RowsOf, CountOpen;
    var openPositions := RowsOf(service.db.positions);
    var openKeys := OpenKeys(openPositions);
    stopped := ManageOpenPositions(service, pass, ManagedKeys(openPositions));
    if stopped { return; }
    var freeSlots := FreeSlots(pass.settings, service.db.Tables());
    if freeSlots == 0 { return; }
    var candidates := FindCandidates(service, pass, openKeys);
    var ranked := RankEntryCandidates(candidates);
    stopped := AttemptEntries(service, pass, if freeSlots <= |ranked| then ranked[..freeSlots] else ranked);
  }
}
