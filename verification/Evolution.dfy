/** How one action changes the tables: marks aside, it opens one position, reduces one position, or
    leaves the positions alone, and it appends at most one order. */
module Evolution {
  import opened Common
  import opened Config
  import opened Strategy
  import opened Ledger
  import opened PaperExchange
  import opened Instruments
  import opened Risk
  import opened Execution

  // ---------- Marks ----------

  /** The row without its mark. */
  function Unmarked(p: PositionRow): PositionRow {
    p.(currentPrice := 0.0, unrealizedPnl := 0.0)
  }

  /** The same rows, up to marks. */
  ghost predicate Remarked(a: seq<PositionRow>, b: seq<PositionRow>) {
    |a| == |b| && forall i :: 0 <= i < |a| ==> Unmarked(a[i]) == Unmarked(b[i])
  }

  lemma RecalculationRemarks(t: Tables, prices: map<string, real>)
    ensures Remarked(t.positions, Recalculate(t, prices).positions)
  {
  }

  lemma {:induction false} FindOpenIgnoresMarks(a: seq<PositionRow>, b: seq<PositionRow>, key: Key)
    requires Remarked(a, b)
    ensures FindOpen(a, key) == FindOpen(b, key)
  {
    if a != [] {
      var n := |a| - 1;
      assert Unmarked(a[n]) == Unmarked(b[n]);
      FindOpenIgnoresMarks(a[..n], b[..n], key);
    }
  }

  lemma LatestClosedIgnoresMarks(a: seq<PositionRow>, b: seq<PositionRow>, key: Key)
    requires Remarked(a, b)
    ensures LatestClosed(a, key) == LatestClosed(b, key)
  {
    forall i | 0 <= i < |a|
      ensures IsClosedOf(a[i], key) == IsClosedOf(b[i], key) && a[i].closedAt == b[i].closedAt
    {
      assert Unmarked(a[i]) == Unmarked(b[i]);
    }
  }

  lemma {:induction false} CountOpenIgnoresMarks(a: seq<PositionRow>, b: seq<PositionRow>)
    requires Remarked(a, b)
    ensures CountOpen(a) == CountOpen(b)
  {
    if a != [] {
      var n := |a| - 1;
      assert Unmarked(a[n]) == Unmarked(b[n]);
      CountOpenIgnoresMarks(a[..n], b[..n]);
    }
  }

  /** The queries that decide about entries do not see marks. */
  lemma QueriesIgnoreMarks(a: seq<PositionRow>, b: seq<PositionRow>, key: Key)
    requires Remarked(a, b)
    ensures FindOpen(a, key) == FindOpen(b, key)
    ensures LatestClosed(a, key) == LatestClosed(b, key)
    ensures CountOpen(a) == CountOpen(b)
  {
    FindOpenIgnoresMarks(a, b, key);
    LatestClosedIgnoresMarks(a, b, key);
    CountOpenIgnoresMarks(a, b);
  }

  lemma BlockingIgnoresMarks(settings: Settings, a: seq<PositionRow>, b: seq<PositionRow>, symbol: string, now: int)
    requires Remarked(a, b)
    ensures SymbolBlocked(settings, a, symbol, now) ==> SymbolBlocked(settings, b, symbol, now)
  {
    var threshold := CooldownThreshold(settings, now);
    if SymbolBlocked(settings, a, symbol, now) {
      var p :| p in a && StoppedOutSince(p, symbol, threshold);
      var i :| 0 <= i < |a| && a[i] == p;
      assert Unmarked(a[i]) == Unmarked(b[i]);
      assert b[i] in b && StoppedOutSince(b[i], symbol, threshold);
    }
  }

  // ---------- Changes ----------

  datatype Change = NoChange | Opened(row: PositionRow) | Reduced(id: nat, row: PositionRow, reason: ExitReason)

  /** The positions after a change, before they are marked again. */
  function Changed(positions: seq<PositionRow>, change: Change): seq<PositionRow> {
    match change
    case NoChange => positions
    case Opened(row) => positions + [row]
    case Reduced(id, row, _) => if id < |positions| then positions[id := row] else positions
  }

  /** What an entry checks before it opens a position, and what it opens. */
  ghost predicate Opening(settings: Settings, positions: seq<PositionRow>, row: PositionRow, at: int) {
    && row.status == Open && row.openedAt == at && row.closedAt == None
    && FindOpen(positions, row.key) == None
    && CountOpen(positions) < settings.maxConcurrentPositions
    && !SymbolBlocked(settings, positions, row.key.symbol, at)
  }

  /** What an exit does to a row: it stays open, or it is closed at `at` for the given reason. */
  ghost predicate Reducing(positions: seq<PositionRow>, id: nat, row: PositionRow, reason: ExitReason, at: int) {
    && id < |positions|
    && var p := positions[id];
       && p.status == Open
       && row.key == p.key && row.side == p.side && row.openedAt == p.openedAt
       && (if row.status == Open then row.closedAt == p.closedAt && row.exitReason == p.exitReason
           else row.closedAt == Some(at) && row.exitReason == Some(reason))
  }

  ghost predicate Allowed(settings: Settings, positions: seq<PositionRow>, change: Change, at: int) {
    match change
    case NoChange => true
    case Opened(row) => Opening(settings, positions, row, at)
    case Reduced(id, row, reason) => Reducing(positions, id, row, reason, at)
  }

  /** At most one order is appended; it has the key and the time of the action. */
  ghost predicate AtMostOneOrder(before: seq<OrderRow>, after: seq<OrderRow>, key: Key, at: int) {
    after == before ||
    (|after| == |before| + 1 && after[..|before|] == before
     && after[|before|].key == key && after[|before|].createdAt == at)
  }

  ghost predicate Evolves(settings: Settings, t: Tables, change: Change, t': Tables, key: Key, at: int) {
    && Allowed(settings, t.positions, change, at)
    && Remarked(Changed(t.positions, change), t'.positions)
    && AtMostOneOrder(t.orders, t'.orders, key, at)
  }

  // ---------- Entries ----------

  /** The report that an approved entry gets, if the entry reaches the exchange. */
  function EntryReport(settings: Settings, w: World, a: EntryArgs, env: Env, at: int): Option<(NormalizedOrder, Report)> {
    var (marked, prepared) := PrepareEntry(settings, w.tables, a, env);
    if prepared.Failure? then None
    else
      var order := prepared.value;
      var (_, decision) := EvaluateEntry(settings, marked, ProposalOf(settings, a, env, order), at);
      if decision.Blocked? then None
      else Some((order, Place(FeesOf(settings), w.exchange, EntryRequest(settings, a, env, order)).1))
  }

  function EntryChange(settings: Settings, w: World, a: EntryArgs, env: Env, at: int): Change {
    var placed := EntryReport(settings, w, a, env, at);
    if placed.Some? then ChangeOfReport(settings, a, env, placed.value.0, placed.value.1, at) else NoChange
  }

  lemma PreparationRemarks(settings: Settings, t: Tables, a: EntryArgs, env: Env)
    ensures Remarked(t.positions, PrepareEntry(settings, t, a, env).0.positions)
    ensures PrepareEntry(settings, t, a, env).0.orders == t.orders
    ensures PrepareEntry(settings, t, a, env).1.Success? ==> FindOpen(t.positions, a.key) == None
  {
  }

  lemma ApprovalChecks(settings: Settings, t: Tables, e: Proposal, now: int)
    requires EvaluateEntry(settings, t, e, now).1 == Approved
    ensures CountOpen(t.positions) < settings.maxConcurrentPositions
    ensures !SymbolBlocked(settings, t.positions, e.symbol, now)
    ensures Drawdown(EvaluateEntry(settings, t, e, now).0.portfolio) < settings.maxDrawdownPct
    ensures e.price > 0.0 && e.quantity > 0.0
    ensures e.itype == Spot ==> e.side == Long
  {
    var marked := EvaluateEntry(settings, t, e, now).0;
    RecalculationRemarks(t, map[e.symbol := e.price]);
    CountOpenIgnoresMarks(t.positions, marked.positions);
    if SymbolBlocked(settings, t.positions, e.symbol, now) {
      BlockingIgnoresMarks(settings, t.positions, marked.positions, e.symbol, now);
    }
  }

  /** Booking a report appends one order and, if it is a fill, one position. */
  lemma BookingEvolves(settings: Settings, t: Tables, a: EntryArgs, env: Env, order: NormalizedOrder, report: Report, at: int)
    ensures var after := BookEntry(settings, t, a, env, order, report, at);
            && AtMostOneOrder(t.orders, after.orders, a.key, at)
            && Remarked(if IsFill(report) then t.positions + [EnteredPosition(EntryFillOf(settings, a, env, order, report, at))]
                        else t.positions,
                        after.positions)
  {
  }

  /** An approved entry may open its position. */
  lemma ApprovedMayOpen(settings: Settings, t: Tables, a: EntryArgs, env: Env, fill: EntryFill, at: int)
    requires PrepareEntry(settings, t, a, env).1.Success?
    requires var (marked, prepared) := PrepareEntry(settings, t, a, env);
             EvaluateEntry(settings, marked, ProposalOf(settings, a, env, prepared.value), at).1 == Approved
    requires fill.key == a.key && fill.at == at
    ensures Opening(settings, t.positions, EnteredPosition(fill), at)
  {
    var (marked, prepared) := PrepareEntry(settings, t, a, env);
    PreparationRemarks(settings, t, a, env);
    ApprovalChecks(settings, marked, ProposalOf(settings, a, env, prepared.value), at);
    CountOpenIgnoresMarks(t.positions, marked.positions);
    if SymbolBlocked(settings, t.positions, a.key.symbol, at) {
      BlockingIgnoresMarks(settings, t.positions, marked.positions, a.key.symbol, at);
    }
  }

  lemma EntryEvolves(settings: Settings, w: World, a: EntryArgs, env: Env, at: int)
    ensures Evolves(settings, w.tables, EntryChange(settings, w, a, env, at),
                    SubmitEntry(settings, w, a, env, at).0.tables, a.key, at)
  {
    var t := w.tables;
    var (marked, prepared) := PrepareEntry(settings, t, a, env);
    PreparationRemarks(settings, t, a, env);
    if prepared.Success? {
      var order := prepared.value;
      var e := ProposalOf(settings, a, env, order);
      var (checked, decision) := EvaluateEntry(settings, marked, e, at);
      RecalculationRemarks(marked, map[e.symbol := e.price]);
      RemarkedTwice(t.positions, marked.positions, checked.positions);
      if decision.Approved? {
        PlacedEntryEvolves(settings, t, a, env, at, checked, order, EntryReport(settings, w, a, env, at).value.1);
      }
    }
  }

  function ChangeOfReport(settings: Settings, a: EntryArgs, env: Env, order: NormalizedOrder, report: Report, at: int): Change {
    if IsFill(report) then Opened(EnteredPosition(EntryFillOf(settings, a, env, order, report, at))) else NoChange
  }

  lemma PlacedEntryEvolves(settings: Settings, t: Tables, a: EntryArgs, env: Env, at: int, checked: Tables,
                           order: NormalizedOrder, report: Report)
    requires PrepareEntry(settings, t, a, env).1 == Success(order)
    requires EvaluateEntry(settings, PrepareEntry(settings, t, a, env).0, ProposalOf(settings, a, env, order), at)
             == (checked, Approved)
    requires Remarked(t.positions, checked.positions) && checked.orders == t.orders
    ensures Evolves(settings, t, ChangeOfReport(settings, a, env, order, report, at),
                    BookEntry(settings, checked, a, env, order, report, at), a.key, at)
  {
    hide PrepareEntry, EvaluateEntry, BookEntry, LiquidationOf, EntryCollateral, StopPrice, TakeProfitPrice, CountOpen, FindOpen;
    var after := BookEntry(settings, checked, a, env, order, report, at);
    var change := ChangeOfReport(settings, a, env, order, report, at);
    BookingEvolves(settings, checked, a, env, order, report, at);
    if IsFill(report) {
      ApprovedMayOpen(settings, t, a, env, EntryFillOf(settings, a, env, order, report, at), at);
    }
    RemarkedTwice(Changed(t.positions, change), Changed(checked.positions, change), after.positions);
  }

  // ---------- Closes ----------

  function CloseReport(settings: Settings, w: World, id: nat, c: CloseArgs, env: Env): Option<Report>
    requires id < |w.tables.positions|
  {
    var p := w.tables.positions[id];
    var normalized := NormalizeOrder(settings, env.instrument, p.quantity, c.limitPrice, c.referencePrice, p.leverage);
    if p.status != Open || normalized.Failure? then None
    else Some(Place(FeesOf(settings), w.exchange, CloseRequest(settings, p, c, env, normalized.value)).1)
  }

  function CloseChange(settings: Settings, w: World, id: nat, c: CloseArgs, env: Env, at: int): Change
    requires id < |w.tables.positions|
  {
    var report := CloseReport(settings, w, id, c, env);
    if report.Some? && IsFill(report.value) then
      var t := w.tables;
      Reduced(id, ExitedPosition(t.positions[id], ExitFillOf(c, report.value, at),
                                 EntryFees(t.trades, id), EntryQuantity(t.trades, id)), c.reason)
    else NoChange
  }

  lemma CloseEvolves(settings: Settings, w: World, id: nat, c: CloseArgs, env: Env, at: int)
    requires id < |w.tables.positions|
    ensures Evolves(settings, w.tables, CloseChange(settings, w, id, c, env, at),
                    ClosePosition(settings, w, id, c, env, at).0.tables, w.tables.positions[id].key, at)
  {
    hide NormalizeOrder, Place, CloseRequest, ExitRealized, CollateralRelease, FundingAlloc, RemainingQuantity, PnlOn,
         EntryFees, EntryQuantity, ExitTrade, Totals;
  }

  // ---------- Evaluations ----------

  function EvaluationChange(settings: Settings, w: World, call: Call, at: int): Change {
    if call.frame == [] then NoChange
    else
      var selected := SelectedSignalRow(settings, call);
      var open := FindOpen(w.tables.positions, KeyOf(call));
      if selected.None? || BarAlreadyProcessed(w.tables.orders, KeyOf(call), selected.value.timestamp) then NoChange
      else if open.Some? then
        var marked := MarkAtLatest(w, call);
        match TriggeredExit(marked.tables.positions[open.value], selected.value)
        case None => NoChange
        case Some((price, reason)) => CloseChange(settings, marked, open.value, MarketClose(price, reason), call.env, at)
      else if PreviewCandidate(settings, w.tables, call).PreviewEntry? then
        EntryChange(settings, w, StrategyEntry(settings, call, selected.value), call.env, at)
      else NoChange
  }

  lemma AllowedIgnoresMarks(settings: Settings, a: seq<PositionRow>, b: seq<PositionRow>, change: Change, at: int)
    requires Remarked(a, b) && change.Reduced? && Allowed(settings, b, change, at)
    ensures Allowed(settings, a, change, at)
    ensures Remarked(Changed(a, change), Changed(b, change))
  {
    assert Unmarked(a[change.id]) == Unmarked(b[change.id]);
  }

  lemma RemarkedTwice(a: seq<PositionRow>, b: seq<PositionRow>, c: seq<PositionRow>)
    requires Remarked(a, b) && Remarked(b, c)
    ensures Remarked(a, c)
  {
  }

  lemma ManagementEvolves(settings: Settings, w: World, call: Call, id: nat, row: SignalRow, at: int)
    requires call.frame != [] && FindOpen(w.tables.positions, KeyOf(call)) == Some(id)
    ensures var marked := MarkAtLatest(w, call);
            var exit := TriggeredExit(marked.tables.positions[id], row);
            var change := if exit.None? then NoChange
                          else CloseChange(settings, marked, id, MarketClose(exit.value.0, exit.value.1), call.env, at);
            Evolves(settings, w.tables, change, Manage(settings, marked, call, id, row, at).0.tables, KeyOf(call), at)
  {
    var marked := MarkAtLatest(w, call);
    var prices := map[call.symbol := call.frame[|call.frame| - 1].close];
    RecalculationRemarks(w.tables, prices);
    assert Unmarked(w.tables.positions[id]) == Unmarked(marked.tables.positions[id]);
    var exit := TriggeredExit(marked.tables.positions[id], row);
    if exit.Some? {
      var c := MarketClose(exit.value.0, exit.value.1);
      CloseEvolves(settings, marked, id, c, call.env, at);
      var change := CloseChange(settings, marked, id, c, call.env, at);
      if change.Reduced? {
        AllowedIgnoresMarks(settings, w.tables.positions, marked.tables.positions, change, at);
        RemarkedTwice(Changed(w.tables.positions, change), Changed(marked.tables.positions, change),
                      ClosePosition(settings, marked, id, c, call.env, at).0.tables.positions);
      }
    }
  }

  lemma EvaluationEvolves(settings: Settings, w: World, call: Call, at: int)
    ensures Evolves(settings, w.tables, EvaluationChange(settings, w, call, at),
                    Evaluate(settings, w, call, at).0.tables, KeyOf(call), at)
  {
    hide SubmitEntry, ClosePosition, EntryChange, CloseChange, CoolingDown;
    if call.frame != [] {
      var selected := SelectedSignalRow(settings, call);
      var open := FindOpen(w.tables.positions, KeyOf(call));
      RecalculationRemarks(w.tables, map[call.symbol := call.frame[|call.frame| - 1].close]);
      if selected.None? || BarAlreadyProcessed(w.tables.orders, KeyOf(call), selected.value.timestamp) {
      } else if open.Some? {
        ManagementEvolves(settings, w, call, open.value, selected.value, at);
      } else if PreviewCandidate(settings, w.tables, call).PreviewEntry? {
        EntryEvolves(settings, w, StrategyEntry(settings, call, selected.value), call.env, at);
      }
    }
  }
}
