/** The limits under which a run opens positions, and the peak that its drawdown is measured from. */
module RunLimits {
  import opened Common
  import opened Config
  import opened Ledger
  import opened Instruments
  import opened Risk
  import opened Execution
  import opened Evolution
  import opened Runs

  /** The entry that an action would attempt. */
  function AttemptOf(settings: Settings, action: Action): Option<(EntryArgs, Env)> {
    match action
    case EvaluateCall(call, _) =>
      if call.frame == [] then None
      else
        var selected := SelectedSignalRow(settings, call);
        if selected.None? then None else Some((StrategyEntry(settings, call, selected.value), call.env))
    case SubmitOther(args, env, _) => Some((args, env))
    case _ => None
  }

  /** The tables that the risk checks of an entry look at. */
  function CheckedTables(settings: Settings, t: Tables, a: EntryArgs, env: Env, at: int): Option<Tables> {
    var (marked, prepared) := PrepareEntry(settings, t, a, env);
    if prepared.Failure? then None
    else Some(EvaluateEntry(settings, marked, ProposalOf(settings, a, env, prepared.value), at).0)
  }

  /** An entry is within the limits: marked at its own price, the portfolio has lost less than the
      limit since its highest equity so far, holds fewer positions than it may, and the symbol was not
      stopped out within the cooldown. */
  ghost predicate WithinLimits(settings: Settings, t: Tables, a: EntryArgs, env: Env, at: int) {
    var checked := CheckedTables(settings, t, a, env, at);
    && checked.Some?
    && checked.value.portfolio.peakEquity >= t.portfolio.peakEquity
    && Drawdown(checked.value.portfolio) < settings.maxDrawdownPct
    && CountOpen(t.positions) < settings.maxConcurrentPositions
    && !SymbolBlocked(settings, t.positions, a.key.symbol, at)
  }

  lemma MarkingKeepsPeak(settings: Settings, t: Tables, e: Proposal, at: int)
    ensures PeakIsKept(t, EvaluateEntry(settings, t, e, at).0)
  {
    hide Decide;
  }

  lemma PreparationKeepsPeak(settings: Settings, t: Tables, a: EntryArgs, env: Env)
    ensures PeakIsKept(t, PrepareEntry(settings, t, a, env).0)
  {
    hide RequestedQuantity, NormalizeOrder;
  }

  lemma AcceptedIsWithinLimits(settings: Settings, w: World, a: EntryArgs, env: Env, at: int)
    ensures EntryChange(settings, w, a, env, at).Opened? ==> WithinLimits(settings, w.tables, a, env, at)
  {
    if !EntryChange(settings, w, a, env, at).Opened? { return; }
    hide PrepareEntry, EvaluateEntry, ProposalOf, ChangeOfReport, CountOpen, SymbolBlocked, Drawdown;
    var t := w.tables;
    var (marked, prepared) := PrepareEntry(settings, t, a, env);
    var e := ProposalOf(settings, a, env, prepared.value);
    PreparationRemarks(settings, t, a, env);
    PreparationKeepsPeak(settings, t, a, env);
    MarkingKeepsPeak(settings, marked, e, at);
    ApprovalChecks(settings, marked, e, at);
    CountOpenIgnoresMarks(t.positions, marked.positions);
    ProposalSymbol(settings, a, env, prepared.value);
    if SymbolBlocked(settings, t.positions, a.key.symbol, at) {
      BlockingIgnoresMarks(settings, t.positions, marked.positions, a.key.symbol, at);
    }
  }

  lemma ProposalSymbol(settings: Settings, a: EntryArgs, env: Env, order: NormalizedOrder)
    ensures ProposalOf(settings, a, env, order).symbol == a.key.symbol
  {
  }

  lemma OnlyAttemptsOpen(settings: Settings, w: World, action: Action)
    requires ChangeOf(settings, w, action).Opened?
    ensures var attempt := AttemptOf(settings, action);
            attempt.Some? && ChangeOf(settings, w, action) == EntryChange(settings, w, attempt.value.0, attempt.value.1, action.at)
  {
    hide EntryChange, StrategyEntry, TriggeredExit;
  }

  /** Whatever the action, a position is opened only by an entry within the limits. */
  lemma OpeningsAreWithinLimits(settings: Settings, w: World, action: Action)
    ensures |Apply(settings, w, action).tables.positions| > |w.tables.positions| ==>
              var attempt := AttemptOf(settings, action);
              attempt.Some? && WithinLimits(settings, w.tables, attempt.value.0, attempt.value.1, action.at)
  {
    ActionEvolves(settings, w, action);
    if !ChangeOf(settings, w, action).Opened? { return; }
    OnlyAttemptsOpen(settings, w, action);
    hide Apply, WithinLimits, AttemptOf, ChangeOf, EntryChange;
    var (a, env) := AttemptOf(settings, action).value;
    AcceptedIsWithinLimits(settings, w, a, env, action.at);
  }

  lemma {:induction false} EquityIsBelowPeak(settings: Settings, actions: seq<Action>)
    ensures Run(settings, actions).tables.portfolio.lastEquity <= Run(settings, actions).tables.portfolio.peakEquity
  {
    hide Apply;
    if actions != [] {
      EquityIsBelowPeak(settings, actions[..|actions| - 1]);
      ActionKeepsPeak(settings, Run(settings, actions[..|actions| - 1]), actions[|actions| - 1]);
    }
  }

  /** The peak of a run never falls, whatever the actions, and no equity that the run has gone through is
      above it. */
  lemma {:induction false} PeakNeverFalls(settings: Settings, actions: seq<Action>, n: nat)
    requires n <= |actions|
    ensures Run(settings, actions[..n]).tables.portfolio.peakEquity <= Run(settings, actions).tables.portfolio.peakEquity
    ensures Run(settings, actions[..n]).tables.portfolio.lastEquity <= Run(settings, actions).tables.portfolio.peakEquity
  {
    hide Apply;
    if n == |actions| {
      assert actions[..n] == actions;
      EquityIsBelowPeak(settings, actions);
    } else {
      var m := |actions| - 1;
      assert actions[..m][..n] == actions[..n];
      PeakNeverFalls(settings, actions[..m], n);
      ActionKeepsPeak(settings, Run(settings, actions[..m]), actions[m]);
    }
  }

  /** The peak is no lower than it was, and no lower than the equity if it was not. */
  ghost predicate PeakIsKept(before: Tables, after: Tables) {
    && after.portfolio.peakEquity >= before.portfolio.peakEquity
    && (before.portfolio.lastEquity <= before.portfolio.peakEquity ==>
          after.portfolio.lastEquity <= after.portfolio.peakEquity)
  }

  lemma EntryKeepsPeak(settings: Settings, w: World, a: EntryArgs, env: Env, at: int)
    ensures PeakIsKept(w.tables, SubmitEntry(settings, w, a, env, at).0.tables)
  {
    hide PrepareEntry, Decide, PaperExchange.Place, SumBy;
    PreparationKeepsPeak(settings, w.tables, a, env);
  }

  lemma CloseKeepsPeak(settings: Settings, w: World, id: nat, c: CloseArgs, env: Env, at: int)
    requires id < |w.tables.positions|
    ensures PeakIsKept(w.tables, ClosePosition(settings, w, id, c, env, at).0.tables)
  {
    hide NormalizeOrder, PaperExchange.Place, SumBy;
  }

  lemma ActionKeepsPeak(settings: Settings, w: World, action: Action)
    ensures PeakIsKept(w.tables, Apply(settings, w, action).tables)
  {
    hide SubmitEntry, ClosePosition, SumBy, RepriceAll, RecordFunding, TriggeredExit, SelectedSignalRow, CoolingDown;
    match action
    case EvaluateCall(call, at) => EvaluationKeepsPeak(settings, w, call, at);
    case SubmitOther(args, env, at) => EntryKeepsPeak(settings, w, args, env, at);
    case CloseById(id, reference, env, at) =>
      if id < |w.tables.positions| {
        CloseKeepsPeak(settings, w, id, MarketClose(ManualReference(w.tables.positions[id], reference), ManualExit), env, at);
      }
    case CancelById(orderId, _) =>
    case ChargeFunding(id, cost, at) => FundingKeepsPeak(w.tables, id, cost, at);
    case RepriceTo(prices, _) =>
  }

  lemma FundingKeepsPeak(t: Tables, id: nat, cost: real, at: int)
    ensures id < |t.positions| ==> RecordFunding(t, id, cost, at).portfolio == t.portfolio
  {
  }

  lemma EvaluationKeepsPeak(settings: Settings, w: World, call: Call, at: int)
    ensures PeakIsKept(w.tables, Evaluate(settings, w, call, at).0.tables)
  {
    hide SubmitEntry, ClosePosition, SumBy, TriggeredExit, SelectedSignalRow, CoolingDown, BarAlreadyProcessed;
    if call.frame != [] && SelectedSignalRow(settings, call).Some? {
      var row, open := SelectedSignalRow(settings, call).value, FindOpen(w.tables.positions, KeyOf(call));
      EntryKeepsPeak(settings, w, StrategyEntry(settings, call, row), call.env, at);
      if open.Some? {
        var marked := MarkAtLatest(w, call);
        var triggered := TriggeredExit(marked.tables.positions[open.value], row);
        if triggered.Some? {
          CloseKeepsPeak(settings, marked, open.value, MarketClose(triggered.value.0, triggered.value.1), call.env, at);
        }
      }
    }
  }
}
